# Splash screen widget: a Dafny model

`splashscreen_ctk` is a customtkinter widget that shows a frameless, centred,
always-on-top window with an image, an application title and a status line, and
destroys itself once the caller sets its `close_splashscreen` flag. Underneath the
UI calls it has four pieces of logic, and this project models and proves each:

- **Argument checking** (`Validation.dfy`): the seven constructor arguments are checked
  in declaration order. Plain fields must be exactly `str`. Font fields must have
  `len()` 2, a `str` at `[0]` and an exact `int` at `[1]`. The first field that fails
  raises. Python values are modelled abstractly in `PyValues.dfy`: `type()`, `len()`,
  and `[k]` on strings, bytes, lists, tuples and dictionaries.
- **Window placement** (`Geometry.dfy`): the window is a third of the screen in each
  dimension and is centred.
- **Vertical layout** (`Layout.dfy`): each region is a crop box plus the size its
  image is shown at. Above 160 rows there are three crops that tile the window. At or
  below 160 rows there are two crops of height `H/2`.
- **Close flag and close check** (`Lifecycle.dfy`, `SplashScreen.dfy`): the
  `close_splashscreen` property is a guarded boolean field. The 500 ms check is a
  two-state Open/Closed machine on abstract timer ticks. `Lifecycle` states it as
  pure functions with lemmas over runs of ticks. The class `Splash.SplashScreen`
  implements it with mutable fields and is proved against those functions.

The model follows the code, including where it differs from the package's own
docstring and comments or from what a caller might expect:

- The Tk root window is created by `super().__init__()` (line 17), and a `CTkFrame`
  at line 21, before the arguments are checked (line 29). A failed check therefore
  leaves the already created Tk root and frame alive. The model creates nothing:
  `Splash.Create` runs the check first and returns no widget when it fails.
- With a window height of at most 160, the footer crop is `[H - H/2, H)`. Its height
  is `H/2`, not `H - H/2`. For odd `H`, row `H/2` is in neither crop.
- The image source must be exactly a `str`. Bytes and `io.BytesIO` objects are
  refused with a TypeError on `image_path`.
- The font size ceiling of 64 and the positivity of the size are never checked.
- A font only needs `len()` 2 and the right element types. A two-element list
  passes, and so does a dictionary with keys `0` and `1`. A two-character string
  fails on its size. An unsized value raises TypeError from `len()` itself. A
  two-entry dictionary without key `0`, or with a `str` at key `0` and no key `1`,
  raises KeyError; one with a non-`str` at key `0` fails on the name first.

## Model

| member | source | states |
|---|---|---|
| `PyValues.TypeOf` | splashscreen_ctk/__init__.py:63-64 | `type(v)` is `str`, `int` or `bool` exactly when `v` is a string, an integer or a boolean; a `bool` is not of type `int` |
| `PyValues.Len` | splashscreen_ctk/__init__.py:62 | `len(v)` is defined exactly for strings, bytes, lists, tuples and dictionaries |
| `PyValues.Lookup` | splashscreen_ctk/__init__.py:63-64 | `d[k]` finds a value exactly when some key compares equal to `k`, and the value found belongs to such a key |
| `PyValues.Subscript` | splashscreen_ctk/__init__.py:63-64 | `v[k]` on a list or tuple is its k-th item, on a string the one-character string at k, on bytes the integer 0..255 at k; on a dictionary it is found exactly when some key compares equal to `k`, and is a KeyError otherwise |
| `Validation.Fields` | splashscreen_ctk/__init__.py:52-58 | the table has seven fields with distinct names; exactly the third and sixth (`status_font`, `app_info_font`) carry the font rule, all others the `str` rule |
| `Validation.CheckFont` | splashscreen_ctk/__init__.py:61-64 | a font passes exactly when it has the accepted shape; an unsized font is a TypeError from `len()`; the error is a ValueError exactly when the length is not 2; it is a KeyError exactly when the font is a two-entry dictionary lacking key 0, or holding a `str` at key 0 and lacking key 1; a name error implies length 2; a size error implies length 2 and a `str` name |
| `Validation.CheckField` | splashscreen_ctk/__init__.py:60-68 | a field passes exactly when it satisfies its rule; a plain field that fails reports its actual type |
| `Validation.CheckUserInputTypes` | splashscreen_ctk/__init__.py:51-68 | the loop over the ordered fields, leaving at the first failure, gives the outcome of checking the fields in order |
| `Validation.PassedIffAllConform` | splashscreen_ctk/__init__.py:60-68 | the check raises nothing exactly when every one of the seven fields satisfies its rule |
| `Validation.RaisedAtFirstFailure` | splashscreen_ctk/__init__.py:60-68 | if every field before field `i` conforms and field `i` does not, the error is raised for field `i`'s name with field `i`'s failure |
| `Validation.RaisedComesFromFirstFailure` | splashscreen_ctk/__init__.py:60-68 | every raised error belongs to a failing field that only conforming fields precede |
| `Validation.DefaultsAccepted` | splashscreen_ctk/__init__.py:15-16 | with the default arguments the check passes exactly when the image path is a `str`; otherwise it raises a TypeError on `image_path` |
| `Validation.BoolSizeRefused` | splashscreen_ctk/__init__.py:64 | a font whose size is a `bool` is a TypeError on the size |
| `Validation.AnyIntSizeAccepted` | splashscreen_ctk/__init__.py:11 | a `(str, int)` font passes for every integer size; the documented limit of 64 is not enforced |
| `Validation.ListFontAccepted` | splashscreen_ctk/__init__.py:61-64 | a two-element list of a `str` and an `int` passes as a font |
| `Validation.ThreeElementFontRefused` | splashscreen_ctk/__init__.py:62 | a three-element font is a ValueError reporting the font, whatever its elements |
| `Validation.ChecksInOrder` | splashscreen_ctk/__init__.py:62-64 | for every font of length 2, whatever its container: a missing `[0]` is a KeyError; a non-`str` `[0]` is a TypeError on the name even when `[1]` is also wrong; with a `str` name, a missing `[1]` is a KeyError and a non-`int` `[1]` is a TypeError on the size |
| `Validation.TwoCharStringFontRefused` | splashscreen_ctk/__init__.py:62-64 | a two-character string passes the length and name checks and is refused on its size, as a `str` |
| `Validation.DictFontAccepted` | splashscreen_ctk/__init__.py:62-64 | a dictionary `{0: name, 1: size}` passes as a font |
| `Geometry.Third` | splashscreen_ctk/__init__.py:75-76 | the window extent is the largest `w` with `3w` not above the screen extent |
| `Geometry.CentredOffset` | splashscreen_ctk/__init__.py:77-78 | the offset keeps the window on the screen, and the margin after it equals the margin before it or exceeds it by one |
| `Geometry.PositionWindow` | splashscreen_ctk/__init__.py:71-79 | the window is a third of the screen in each dimension, lies within the screen, and is centred to within one pixel |
| `Geometry.PlacementUnique` | splashscreen_ctk/__init__.py:71-79 | any placement that is a third of the screen and centred in this way is exactly the computed one |
| `Layout.HeaderHeight` | splashscreen_ctk/__init__.py:96-99 | the header is 80 rows above a window height of 160, and otherwise half the height rounded down |
| `Layout.CreateLayout` | splashscreen_ctk/__init__.py:95-117 | a filler exists exactly above 160 rows; the header starts at row 0 and the footer ends at the window height; header and footer have equal heights |
| `Layout.RegionsConsistent` | splashscreen_ctk/__init__.py:102-117 | every crop spans the full window width and is displayed at its own width and height |
| `Layout.TallLayoutTiles` | splashscreen_ctk/__init__.py:96-117 | above 160 rows the crops are `[0,80)`, `[80,H-80)` and `[H-80,H)`, the filler is displayed at height `H - 160`, and the crops tile `[0,H)` with no gap and no overlap |
| `Layout.ShortLayoutHalves` | splashscreen_ctk/__init__.py:99-117 | at most 160 rows gives no filler, header `[0,H/2)` and footer `[H-H/2,H)`; they never overlap, and they tile `[0,H)` exactly when `H` is even |
| `Layout.OddShortHeightMissesMiddleRow` | splashscreen_ctk/__init__.py:99-116 | for an odd height of at most 160, row `H/2` lies in the window but in neither crop |
| `Lifecycle.CheckClose` | splashscreen_ctk/__init__.py:130-132 | the check keeps the machine in a reachable state |
| `Lifecycle.Tick` | splashscreen_ctk/__init__.py:130-132 | a tick keeps the machine reachable; a closed window is left alone; an open window with the flag set is closed and destroyed once with nothing scheduled; with the flag clear it stays open with one check scheduled |
| `Lifecycle.Run` | splashscreen_ctk/__init__.py:130-132 | any run of ticks keeps the machine reachable and never undoes a destruction |
| `Lifecycle.ClosedIsTerminal` | splashscreen_ctk/__init__.py:130-132 | once closed, no sequence of ticks schedules a check or destroys the window again |
| `Lifecycle.RunClosesIffRequested` | splashscreen_ctk/__init__.py:130-132 | from an open window, a run ends closed exactly when the flag was set at some tick, and the window is then destroyed exactly once |
| `Lifecycle.ClosesOnFirstRequestedTick` | splashscreen_ctk/__init__.py:130-132 | the window is unchanged and open through the ticks with the flag clear, and is closed by the first tick that sees it set |
| `Splash.SplashScreen.constructor` | splashscreen_ctk/__init__.py:15-37 | after a successful check: the flag is clear, the window is open with one check scheduled, and the placement and layout are derived from the screen size |
| `Splash.SplashScreen.GetCloseSplashscreen` | splashscreen_ctk/__init__.py:40-42 | the getter returns the stored flag and changes nothing |
| `Splash.SplashScreen.SetCloseSplashscreen` | splashscreen_ctk/__init__.py:45-48 | a `bool` is stored as given; any other value is a TypeError reporting its type, and the stored flag is unchanged |
| `Splash.SplashScreen.Destroy` | splashscreen_ctk/__init__.py:131 | destroying the open window leaves it closed and counts one more destruction |
| `Splash.SplashScreen.CheckClose` | splashscreen_ctk/__init__.py:130-132 | the fired check changes the window's state as the pure close check does |
| `Splash.SplashScreen.Tick` | splashscreen_ctk/__init__.py:37 | a timer tick keeps the object invariant and changes the state as the pure tick does, for the current flag |
| `Splash.Create` | splashscreen_ctk/__init__.py:15-29 | construction reports the argument check's outcome; a widget is made exactly when the check passes, fresh, open, with the flag clear |
| `Splash.CloseSession` | Test/test_splashscreen_ctk.py:5-36 | after six wrong-typed assignments, setting the flag and one tick leave the window closed and destroyed exactly once |

## Left out

- Splash.Create: a failed argument check leaves the already created Tk root and
  `CTkFrame` alive (lines 17 and 21 run before line 29); the model creates nothing,
  because the window is not modelled. Errors from `Image.open` and `resize` (lines
  91-92: a missing file, a non-image) after a passing check are not modelled either,
  so in the model a passing check always yields a widget.
- A `PyDict` entry list with two keys that compare equal in Python (`0` and `False`),
  or with an unhashable key (a list or a dictionary), stands for no Python dictionary:
  building such a dictionary already fails in Python. The model does not exclude such
  lists; lookup then takes the first matching entry and `len()` counts every entry.

- Window creation and its attributes: `super().__init__`, `geometry`, topmost,
  `resizable`, `overrideredirect` and `update_idletasks`. These are Tk calls whose
  effects are not visible to the model. The model keeps only the numbers passed to
  `geometry`.
- Widget packing, `CTkLabel` and `CTkImage` construction, and the text, font and
  colour passed to the labels.
- Image loading, resizing and pixel cropping. Crops are modelled only as integer
  rectangles.
- The `splash_status_text` `StringVar`, `update()` redraws and the rule that they
  work only on the window's own thread.
- The 500 ms timer is modelled as abstract ticks. `destroy()` is modelled as a state
  change and a destruction count.
- The threading and `time.sleep` driver code in the test and example scripts.
- `setup.py`: packaging metadata only.
- Float division: `int(x / 3)` and `int(x / 2)` on non-negative screen sizes are
  floor division. Rounding for sizes beyond 2^53 is not modelled.
- Python values other than `None`, `bool`, `int`, `float`, `str`, `bytes`, `list`,
  `tuple` and `dict` are not modelled. This includes subclasses of `str` and `int`,
  which the exact-type checks refuse, and user objects that define `__len__`.
  Floats are reals, so NaN is not modelled.
- Python's dictionary key equality is modelled for numeric keys only (`False == 0`,
  `0.0 == 0`). Only numeric keys can match the integer subscripts 0 and 1.
- Error messages are modelled by what they report: the font for a length error,
  a type for a type error, the key for a KeyError. Their text is not modelled.

/** The configuration check the splash screen runs on its seven constructor
    arguments: every plain field must be exactly a `str`, every font field a
    `(font_as_str, size_as_int)` pair. */
module Validation {
  import opened PyValues

  /** The seven caller-supplied arguments, in declaration order. */
  datatype Config = Config(
    imagePath: PyValue,
    initialStatusValue: PyValue,
    statusFont: PyValue,
    statusTextColour: PyValue,
    appInfo: PyValue,
    appInfoFont: PyValue,
    appInfoTextColor: PyValue)

  /** The constructor's defaults for everything but the image path. */
  function DefaultConfig(imagePath: PyValue): Config {
    Config(imagePath, PyStr(""), PyTuple([PyStr("helvetica"), PyInt(18)]), PyStr("black"),
           PyStr(""), PyTuple([PyStr("helvetica"), PyInt(36)]), PyStr("black"))
  }

  /** The expected type recorded beside each field: `str`, or the `tuple` marker of a font. */
  datatype Rule = MustBeStr | FontPair

  datatype Field = Field(name: string, value: PyValue, rule: Rule)

  /** The check's ordered table of fields. */
  function Fields(c: Config): (fs: seq<Field>)
    ensures |fs| == 7
    ensures forall i :: 0 <= i < |fs| ==> (fs[i].rule == FontPair <==> i == 2 || i == 5)
    ensures forall i, j :: 0 <= i < j < |fs| ==> fs[i].name != fs[j].name
  {
    [ Field("image_path", c.imagePath, MustBeStr),
      Field("initial_status_value", c.initialStatusValue, MustBeStr),
      Field("status_font", c.statusFont, FontPair),
      Field("status_text_colour", c.statusTextColour, MustBeStr),
      Field("app_info", c.appInfo, MustBeStr),
      Field("app_info_font", c.appInfoFont, FontPair),
      Field("app_info_text_color", c.appInfoTextColor, MustBeStr) ]
  }

  /** Why a field was refused, with what the error message reports. */
  datatype Failure =
    | FontLength(font: PyValue)        // ValueError: the font is not of length 2
    | FontNameType(given: PyType)      // TypeError: the font's first element is not a str
    | FontSizeType(given: PyType)      // TypeError: the font's second element is not an int
    | WrongType(given: PyType)         // TypeError: a plain field is not a str
    | NoLen(given: PyType)             // TypeError raised by len() on an unsized font
    | MissingKey(key: int)             // KeyError raised by subscripting a dictionary font

  function Kind(f: Failure): ErrorKind {
    match f
    case FontLength(_) => ValueError
    case MissingKey(_) => KeyError
    case _ => TypeError
  }

  /** What a font field looks like when it is accepted, stated by shape: a tuple or a
      list of a `str` and an `int`, or a two-entry dictionary whose keys 0 and 1 hold them. */
  function AcceptedFont(v: PyValue): Option<(string, int)> {
    match v
    case PyTuple(items) => PairOf(items)
    case PyList(items) => PairOf(items)
    case PyDict(entries) =>
      if |entries| == 2 then
        match (Lookup(entries, 0), Lookup(entries, 1))
        case (Some(PyStr(name)), Some(PyInt(size))) => Some((name, size))
        case _ => None
      else None
    case _ => None
  }

  function PairOf(items: seq<PyValue>): Option<(string, int)> {
    if |items| == 2 && items[0].PyStr? && items[1].PyInt? then Some((items[0].s, items[1].i))
    else None
  }

  /** A field satisfies its rule. */
  predicate Conforms(f: Field) {
    match f.rule
    case MustBeStr => f.value.PyStr?
    case FontPair => AcceptedFont(f.value).Some?
  }

  /** The font check: length first, then the name's type, then the size's type. */
  function CheckFont(v: PyValue): (r: Option<Failure>)
    ensures r.None? <==> AcceptedFont(v).Some?
    ensures Len(v).None? ==> r == Some(NoLen(TypeOf(v)))
    ensures Len(v).Some? && Len(v).value != 2 ==> r == Some(FontLength(v))
    ensures (r.Some? && r.value.FontLength?) <==> Len(v).Some? && Len(v).value != 2
    ensures (r.Some? && r.value.MissingKey?) <==>
              v.PyDict? && |v.entries| == 2 &&
              (Lookup(v.entries, 0).None? || (Lookup(v.entries, 0).value.PyStr? && Lookup(v.entries, 1).None?))
    ensures r.Some? && r.value.FontNameType? ==> r.value.given != StrType && Len(v) == Some(2)
    ensures r.Some? && r.value.FontSizeType? ==>
              r.value.given != IntType && Len(v) == Some(2) && Subscript(v, 0).Some? && Subscript(v, 0).value.PyStr?
  {
    match Len(v)
    case None => Some(NoLen(TypeOf(v)))
    case Some(n) =>
      if n != 2 then Some(FontLength(v))
      else
        match Subscript(v, 0)
        case None => Some(MissingKey(0))
        case Some(name) =>
          if TypeOf(name) != StrType then Some(FontNameType(TypeOf(name)))
          else
            match Subscript(v, 1)
            case None => Some(MissingKey(1))
            case Some(size) =>
              if TypeOf(size) != IntType then Some(FontSizeType(TypeOf(size)))
              else None
  }

  /** One iteration of the check: `None` when the field passes. */
  function CheckField(f: Field): (r: Option<Failure>)
    ensures r.None? <==> Conforms(f)
    ensures f.rule == MustBeStr && r.Some? ==> r == Some(WrongType(TypeOf(f.value)))
  {
    match f.rule
    case FontPair => CheckFont(f.value)
    case MustBeStr => if TypeOf(f.value) == StrType then None else Some(WrongType(TypeOf(f.value)))
  }

  /** The outcome of the whole check: no exception, or the exception raised while
      checking the named field. */
  datatype Outcome = Passed | Raised(field: string, failure: Failure)

  /** The fields checked in order; the first refused field ends the check. */
  function CheckFields(fs: seq<Field>): Outcome {
    if fs == [] then Passed
    else match CheckField(fs[0])
      case Some(failure) => Raised(fs[0].name, failure)
      case None => CheckFields(fs[1..])
  }

  function Validate(c: Config): Outcome {
    CheckFields(Fields(c))
  }

  /** `_check_user_input_types`: the loop over the ordered table, leaving at the first
      field that does not pass. */
  method CheckUserInputTypes(c: Config) returns (outcome: Outcome)
    ensures outcome == Validate(c)
  {
    var fs := Fields(c);
    var i := 0;
    while i < |fs|
      invariant 0 <= i <= |fs|
      invariant CheckFields(fs) == CheckFields(fs[i..])
    {
      assert fs[i..][1..] == fs[i + 1..];
      var failure := CheckField(fs[i]);
      if failure.Some? {
        return Raised(fs[i].name, failure.value);
      }
      i := i + 1;
    }
    return Passed;
  }

  /** The check passes exactly when every field satisfies its rule. */
  lemma {:induction false} PassedIffAllConform(fs: seq<Field>)
    ensures CheckFields(fs).Passed? <==> forall i :: 0 <= i < |fs| ==> Conforms(fs[i])
  {
    if fs != [] {
      PassedIffAllConform(fs[1..]);
      assert forall i :: 1 <= i < |fs| ==> fs[i] == fs[1..][i - 1];
    }
  }

  /** The exception names the first field that does not satisfy its rule. */
  lemma {:induction false} RaisedAtFirstFailure(fs: seq<Field>, i: nat)
    requires i < |fs|
    requires forall j :: 0 <= j < i ==> Conforms(fs[j])
    requires !Conforms(fs[i])
    ensures CheckFields(fs) == Raised(fs[i].name, CheckField(fs[i]).value)
  {
    if i > 0 {
      assert Conforms(fs[0]);
      assert forall j :: 0 <= j < i - 1 ==> fs[1..][j] == fs[j + 1];
      RaisedAtFirstFailure(fs[1..], i - 1);
    }
  }

  /** Conversely, a raised exception comes from a field preceded only by conforming ones. */
  lemma {:induction false} RaisedComesFromFirstFailure(fs: seq<Field>)
    requires CheckFields(fs).Raised?
    ensures exists i :: 0 <= i < |fs| && !Conforms(fs[i]) && (forall j :: 0 <= j < i ==> Conforms(fs[j]))
                       && CheckFields(fs) == Raised(fs[i].name, CheckField(fs[i]).value)
  {
    if CheckField(fs[0]).Some? {
      assert !Conforms(fs[0]);
    } else {
      RaisedComesFromFirstFailure(fs[1..]);
      var i :| 0 <= i < |fs[1..]| && !Conforms(fs[1..][i]) && (forall j :: 0 <= j < i ==> Conforms(fs[1..][j]))
               && CheckFields(fs[1..]) == Raised(fs[1..][i].name, CheckField(fs[1..][i]).value);
      assert forall j :: 1 <= j < i + 1 ==> fs[j] == fs[1..][j - 1];
      assert !Conforms(fs[i + 1]);
    }
  }

  /** With the constructor's defaults, any `str` image path is accepted, and
      anything else is refused at the first field. */
  lemma DefaultsAccepted(imagePath: PyValue)
    ensures Validate(DefaultConfig(imagePath)).Passed? <==> imagePath.PyStr?
    ensures !imagePath.PyStr? ==> Validate(DefaultConfig(imagePath)) == Raised("image_path", WrongType(TypeOf(imagePath)))
  {
    var fs := Fields(DefaultConfig(imagePath));
    PassedIffAllConform(fs);
    if imagePath.PyStr? {
      assert forall i :: 0 <= i < |fs| ==> Conforms(fs[i]) by {
        assert AcceptedFont(PyTuple([PyStr("helvetica"), PyInt(18)])).Some?;
        assert AcceptedFont(PyTuple([PyStr("helvetica"), PyInt(36)])).Some?;
      }
    }
  }

  /** A `bool` size is refused, although `bool` subclasses `int`. */
  lemma BoolSizeRefused(name: string, size: bool)
    ensures CheckFont(PyTuple([PyStr(name), PyBool(size)])) == Some(FontSizeType(BoolType))
  {
  }

  /** Any `int` size is accepted: the documented ceiling of 64 is not checked,
      nor is the size required to be positive. */
  lemma AnyIntSizeAccepted(name: string, size: int)
    ensures CheckFont(PyTuple([PyStr(name), PyInt(size)])).None?
  {
  }

  /** The font's container type is not checked: a two-element list passes. */
  lemma ListFontAccepted(name: string, size: int)
    ensures CheckFont(PyList([PyStr(name), PyInt(size)])).None?
  {
  }

  /** A three-element font is a ValueError, whatever its elements. */
  lemma ThreeElementFontRefused(a: PyValue, b: PyValue, c: PyValue)
    ensures CheckFont(PyTuple([a, b, c])) == Some(FontLength(PyTuple([a, b, c])))
    ensures Kind(CheckFont(PyTuple([a, b, c])).value) == ValueError
  {
  }

  /** For any font of length 2, whatever its container: the element at `[0]` is
      checked before the one at `[1]`; a missing dictionary key is a KeyError, a
      non-`str` name a TypeError on the name even when the size is also wrong, and a
      non-`int` size a TypeError on the size only once the name is a `str`. */
  lemma ChecksInOrder(v: PyValue)
    requires Len(v) == Some(2)
    ensures Subscript(v, 0).None? ==> CheckFont(v) == Some(MissingKey(0))
    ensures Subscript(v, 0).Some? && !Subscript(v, 0).value.PyStr? ==>
              CheckFont(v) == Some(FontNameType(TypeOf(Subscript(v, 0).value))) &&
              Kind(CheckFont(v).value) == TypeError
    ensures Subscript(v, 0).Some? && Subscript(v, 0).value.PyStr? && Subscript(v, 1).None? ==>
              CheckFont(v) == Some(MissingKey(1))
    ensures Subscript(v, 0).Some? && Subscript(v, 0).value.PyStr? &&
            Subscript(v, 1).Some? && !Subscript(v, 1).value.PyInt? ==>
              CheckFont(v) == Some(FontSizeType(TypeOf(Subscript(v, 1).value))) &&
              Kind(CheckFont(v).value) == TypeError
  {
  }

  /** A two-character string passes the length and name checks and fails on the size. */
  lemma TwoCharStringFontRefused(c0: char, c1: char)
    ensures CheckFont(PyStr([c0, c1])) == Some(FontSizeType(StrType))
  {
  }

  /** A dictionary with keys 0 and 1 passes as a font. */
  lemma DictFontAccepted(name: string, size: int)
    ensures CheckFont(PyDict([(PyInt(0), PyStr(name)), (PyInt(1), PyInt(size))])).None?
  {
    var entries := [(PyInt(0), PyStr(name)), (PyInt(1), PyInt(size))];
    assert Lookup(entries, 0) == Some(PyStr(name));
    assert Lookup(entries, 1) == Some(PyInt(size));
  }
}

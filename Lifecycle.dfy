/** The close check as a state machine on abstract timer ticks. The window starts
    Open with one check scheduled; each tick runs the scheduled check, which either
    destroys the window (the close flag is set) or schedules the next check. */
module Lifecycle {

  datatype WindowState = Open | Closed

  /** The window's state, whether a close check is scheduled, and how many times the
      window has been destroyed. */
  datatype Machine = Machine(state: WindowState, armed: bool, destroyed: nat)

  /** Right after construction: open, first check scheduled, nothing destroyed. */
  const Initial: Machine := Machine(Open, true, 0)

  /** Reachable states: a check is scheduled exactly while the window is open, and
      the window has been destroyed once if closed, never if open. */
  predicate Inv(m: Machine) {
    (m.armed <==> m.state == Open) &&
    m.destroyed == (if m.state == Closed then 1 else 0)
  }

  /** `_check_close`, run by an open window whose scheduled check has just fired. */
  function CheckClose(m: Machine, closeRequested: bool): (r: Machine)
    requires m.state == Open && !m.armed
    ensures Inv(m.(armed := true)) ==> Inv(r)
  {
    if closeRequested then Machine(Closed, false, m.destroyed + 1)
    else m.(armed := true)
  }

  /** One tick of the 500 ms timer, with the close flag as it is at that moment. */
  function Tick(m: Machine, closeRequested: bool): (r: Machine)
    requires Inv(m)
    ensures Inv(r)
    ensures m.state == Closed ==> r == m
    ensures m.state == Open && closeRequested ==> r == Machine(Closed, false, 1)
    ensures m.state == Open && !closeRequested ==> r == m
  {
    if m.armed then CheckClose(m.(armed := false), closeRequested) else m
  }

  /** A sequence of ticks; `flags[i]` is the close flag at the i-th tick. */
  function Run(m: Machine, flags: seq<bool>): (r: Machine)
    requires Inv(m)
    ensures Inv(r)
    ensures m.destroyed <= r.destroyed
    decreases |flags|
  {
    if flags == [] then m else Run(Tick(m, flags[0]), flags[1..])
  }

  /** Once closed, no tick changes anything: no check is scheduled and the window is
      not destroyed again. */
  lemma {:induction false} ClosedIsTerminal(m: Machine, flags: seq<bool>)
    requires Inv(m) && m.state == Closed
    ensures Run(m, flags) == m
  {
    if flags != [] {
      ClosedIsTerminal(Tick(m, flags[0]), flags[1..]);
    }
  }

  /** From an open window, a run ends closed exactly when the flag was set at some
      tick, and the window is then destroyed exactly once. */
  lemma {:induction false} RunClosesIffRequested(m: Machine, flags: seq<bool>)
    requires Inv(m) && m.state == Open
    ensures Run(m, flags).state == Closed <==> true in flags
    ensures Run(m, flags).destroyed == if true in flags then 1 else 0
  {
    if flags != [] {
      var next := Tick(m, flags[0]);
      if flags[0] {
        ClosedIsTerminal(next, flags[1..]);
      } else {
        RunClosesIffRequested(next, flags[1..]);
        assert true in flags <==> true in flags[1..];
      }
    }
  }

  /** The window stays open, with its check re-armed, through every tick with the flag
      clear, and closes on the first tick that sees the flag set. */
  lemma {:induction false} ClosesOnFirstRequestedTick(m: Machine, flags: seq<bool>, i: nat)
    requires Inv(m) && m.state == Open
    requires i < |flags| && flags[i]
    requires forall j :: 0 <= j < i ==> !flags[j]
    ensures Run(m, flags[..i]) == m
    ensures Run(m, flags[..i + 1]) == Machine(Closed, false, 1)
  {
    if i == 0 {
      assert flags[..1] == [flags[0]];
      assert flags[..1][1..] == [];
    } else {
      assert flags[..i][0] == flags[0] && flags[..i][1..] == flags[1..][..i - 1];
      assert flags[..i + 1][0] == flags[0] && flags[..i + 1][1..] == flags[1..][..i];
      ClosesOnFirstRequestedTick(m, flags[1..], i - 1);
    }
  }
}

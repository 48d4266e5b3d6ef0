/** The action-string parser of scripts/run_slumbot.py (`ActionState`) and
    the rule that translates a strategy's action into Slumbot's move syntax.
    Chips are Slumbot's integers (big blind 100). */
module Slumbot {
  import opened Wrappers
  import opened StrategyBase

  const BB: int := 100

  /** The fields of an `ActionState`, as a value. */
  datatype Snapshot = Snapshot(street: int, pot: int, wagers: seq<int>, toAct: int)

  predicate WellShaped(s: Snapshot) {
    |s.wagers| == 2 && (s.toAct == 0 || s.toAct == 1)
  }

  /** `"terminal"` and `"continue"`; `apply("")` returns None instead. */
  datatype Status = Terminal | Continue

  datatype ParseError =
    | MissingAmount           // `int("")` after a 'b' without digits raises ValueError
    | UnknownAction(c: char)  // see `Apply`: the source loops forever here

  predicate IsDigit(c: char) { '0' <= c <= '9' }

  function DigitValue(c: char): nat
    requires IsDigit(c)
  {
    (c as int - '0' as int) as nat
  }

  /** `int(ds)` for a string of decimal digits. */
  function Decimal(ds: string): nat
    requires forall k :: 0 <= k < |ds| ==> IsDigit(ds[k])
  {
    if |ds| == 0 then 0 else 10 * Decimal(ds[..|ds| - 1]) + DigitValue(ds[|ds| - 1])
  }

  /** The first position at or after `j` that is not a digit. */
  function DigitsEnd(action: string, j: nat): (e: nat)
    requires j <= |action|
    ensures j <= e <= |action|
    ensures forall k :: j <= k < e ==> IsDigit(action[k])
    ensures e == |action| || !IsDigit(action[e])
    decreases |action| - j
  {
    if j < |action| && IsDigit(action[j]) then DigitsEnd(action, j + 1) else j
  }

  /** 'c': the lower wager is raised to the higher one; the second update
      reads the first one's result, as the source's two statements do. */
  function CallUp(s: Snapshot): Snapshot
    requires WellShaped(s)
  {
    var diff := if s.wagers[0] >= s.wagers[1] then s.wagers[0] - s.wagers[1] else s.wagers[1] - s.wagers[0];
    var w0 := s.wagers[0] + (if s.wagers[0] < s.wagers[1] then diff else 0);
    var w1 := s.wagers[1] + (if s.wagers[1] < w0 then diff else 0);
    s.(pot := s.pot + diff, wagers := [w0, w1])
  }

  /** 'b<amt>': the player to act now has `amt` in front of them. */
  function BetTo(s: Snapshot, amt: int): Snapshot
    requires WellShaped(s)
  {
    s.(pot := s.pot + (amt - s.wagers[s.toAct]), wagers := s.wagers[s.toAct := amt])
  }

  function Toggle(s: Snapshot): Snapshot { s.(toAct := 1 - s.toAct) }

  /** What one pass of the `while` body does: the new state, the new index,
      and the value returned from inside the body, if any. */
  datatype Pass = Pass(s: Snapshot, i: nat, exit: Option<Result<Status, ParseError>>)

  /** One pass of the loop body exactly as written, including the fall
      through of a character outside "/kcfb": no branch runs, `i` stays put
      and only `to_act` flips. */
  function Body(s: Snapshot, action: string, i: nat): (p: Pass)
    requires WellShaped(s) && i < |action|
    ensures WellShaped(p.s)
  {
    var c := action[i];
    if c == '/' then Pass(s.(street := s.street + 1, wagers := [0, 0]), i + 1, None)
    else if c == 'k' then Pass(Toggle(s), i + 1, None)
    else if c == 'c' then Pass(Toggle(CallUp(s)), i + 1, None)
    else if c == 'f' then Pass(s, i, Some(Ok(Terminal)))
    else if c == 'b' then
      var j := DigitsEnd(action, i + 1);
      if j == i + 1 then Pass(s, i, Some(Err(MissingAmount)))
      else Pass(Toggle(BetTo(s, Decimal(action[i + 1..j]))), j, None)
    else Pass(Toggle(s), i, None)
  }

  predicate Known(c: char) { c in "/kcfb" }

  /** A character the body handles moves the index forward unless it
      returns. */
  lemma BodyAdvances(s: Snapshot, action: string, i: nat)
    requires WellShaped(s) && i < |action| && Known(action[i])
    ensures Body(s, action, i).exit.None? ==> i < Body(s, action, i).i <= |action|
  {
  }

  /** The loop from index `i`, with the unknown-character case made an
      error instead of the source's endless loop. */
  function Run(s: Snapshot, action: string, i: nat): (Snapshot, Result<Status, ParseError>)
    requires WellShaped(s) && i <= |action|
    decreases |action| - i
  {
    if i == |action| then (s, Ok(Continue))
    else if !Known(action[i]) then (s, Err(UnknownAction(action[i])))
    else
      var p := Body(s, action, i);
      BodyAdvances(s, action, i);
      if p.exit.Some? then (p.s, p.exit.value) else Run(p.s, action, p.i)
  }

  /** `apply(action)`: the final state and the returned value (None for ""). */
  function ApplyTo(s: Snapshot, action: string): (Snapshot, Result<Option<Status>, ParseError>)
    requires WellShaped(s)
  {
    if action == "" then (s, Ok(None))
    else
      var (t, r) := Run(s, action, 0);
      (t, match r case Ok(st) => Ok(Some(st)) case Err(e) => Err(e))
  }

  /** `to_call()`: what the player at index 0 must add. */
  function ToCallOf(s: Snapshot): (c: int)
    requires WellShaped(s)
    ensures c >= 0
    ensures c >= s.wagers[1] - s.wagers[0]
    ensures c == 0 || c == s.wagers[1] - s.wagers[0]
  {
    if s.wagers[1] - s.wagers[0] > 0 then s.wagers[1] - s.wagers[0] else 0
  }

  /** Chips in the pot beyond the two current wagers never go negative and
      wagers stay non-negative: what every well-formed action string keeps. */
  predicate Sane(s: Snapshot) {
    WellShaped(s) && s.wagers[0] >= 0 && s.wagers[1] >= 0 && s.pot >= s.wagers[0] + s.wagers[1]
  }

  class ActionState {
    var street: int
    var pot: int
    var wagers: seq<int>
    var toAct: int

    function View(): Snapshot
      reads this
    {
      Snapshot(street, pot, wagers, toAct)
    }

    predicate Valid()
      reads this
    {
      WellShaped(View())
    }

    /** Blinds 50/100 posted, preflop, index 0 to act. */
    constructor ()
      ensures Valid() && Sane(View())
      ensures View() == Snapshot(0, 150, [50, 100], 0)
    {
      street := 0;
      pot := 150;
      wagers := [50, 100];
      toAct := 0;
    }

    function ToCall(): int
      reads this
      requires Valid()
    {
      ToCallOf(View())
    }

    /** `apply(action)`. The state changes made before an 'f', or before a
        'b' without digits, are kept, as the source mutates its fields in
        place. A character outside "/kcfb" makes the source loop forever
        (the body as written, `Step`, then leaves `i` where it is); here it
        ends the parse with an error. */
    method Apply(action: string) returns (r: Result<Option<Status>, ParseError>)
      requires Valid()
      modifies this
      ensures Valid()
      ensures (View(), r) == ApplyTo(old(View()), action)
    {
      if action == "" {
        return Ok(None);
      }
      var i := 0;
      while i < |action|
        invariant 0 <= i <= |action| && Valid()
        invariant Run(View(), action, i) == Run(old(View()), action, 0)
        decreases |action| - i
      {
        var c := action[i];
        if !Known(c) {
          return Err(UnknownAction(c));
        }
        RunStep(View(), action, i);
        BodyAdvances(View(), action, i);
        var next, exit := Step(action, i);
        if exit.Some? {
          return match exit.value case Ok(st) => Ok(Some(st)) case Err(e) => Err(e);
        }
        i := next;
      }
      return Ok(Some(Continue));
    }

    /** One pass of the `while` body of `apply`, as written. */
    method Step(action: string, i: nat) returns (next: nat, exit: Option<Result<Status, ParseError>>)
      requires Valid() && i < |action|
      modifies this
      ensures Valid()
      ensures Pass(View(), next, exit) == Body(old(View()), action, i)
    {
      var c := action[i];
      next := i;
      exit := None;
      if c == '/' {
        street := street + 1;
        wagers := [0, 0];
        return i + 1, None;
      }
      if c == 'k' {
        next := i + 1;
      } else if c == 'c' {
        var diff := if wagers[0] >= wagers[1] then wagers[0] - wagers[1] else wagers[1] - wagers[0];
        pot := pot + diff;
        wagers := wagers[0 := wagers[0] + if wagers[0] < wagers[1] then diff else 0];
        wagers := wagers[1 := wagers[1] + if wagers[1] < wagers[0] then diff else 0];
        next := i + 1;
      } else if c == 'f' {
        return i, Some(Ok(Terminal));
      } else if c == 'b' {
        var j := i + 1;
        while j < |action| && IsDigit(action[j])
          invariant i + 1 <= j <= |action|
          invariant DigitsEnd(action, i + 1) == DigitsEnd(action, j)
          decreases |action| - j
        {
          j := j + 1;
        }
        if j == i + 1 {
          return i, Some(Err(MissingAmount));
        }
        var amt := Decimal(action[i + 1..j]);
        var diff := amt - wagers[toAct];
        pot := pot + diff;
        wagers := wagers[toAct := amt];
        next := j;
      }
      toAct := 1 - toAct;
    }
  }

  // ---------------------------------------------------------------------
  // What a parse does

  /** The loop at a known character: a return, or the loop from the
      body's new state and index. */
  lemma RunStep(s: Snapshot, action: string, i: nat)
    requires WellShaped(s) && i < |action| && Known(action[i])
    ensures var p := Body(s, action, i);
            Run(s, action, i) == if p.exit.Some? then (p.s, p.exit.value) else Run(p.s, action, p.i)
  {
  }

  /** An empty string changes nothing and returns None. */
  lemma EmptyIsNoOp(s: Snapshot)
    requires WellShaped(s)
    ensures ApplyTo(s, "") == (s, Ok(None))
  {
  }

  /** '/' starts the next street with both wagers zero and the same player
      to act. */
  lemma SlashStep(s: Snapshot, action: string, i: nat)
    requires WellShaped(s) && i < |action| && action[i] == '/'
    ensures Run(s, action, i) == Run(s.(street := s.street + 1, wagers := [0, 0]), action, i + 1)
  {
  }

  /** 'c' leaves both wagers at the former maximum, adds exactly the former
      difference to the pot, and passes the turn. */
  lemma CallEqualizes(s: Snapshot)
    requires WellShaped(s)
    ensures var t := CallUp(s);
            t.wagers[0] == t.wagers[1] &&
            t.wagers[0] == (if s.wagers[0] >= s.wagers[1] then s.wagers[0] else s.wagers[1]) &&
            t.pot - s.pot == (if s.wagers[0] >= s.wagers[1] then s.wagers[0] - s.wagers[1] else s.wagers[1] - s.wagers[0]) &&
            t.street == s.street && t.toAct == s.toAct
  {
  }

  /** 'b<n>' puts the mover's wager at n and adds the increase to the pot. */
  lemma BetSetsWager(s: Snapshot, n: int)
    requires WellShaped(s)
    ensures var t := BetTo(s, n);
            t.wagers[s.toAct] == n && t.wagers[1 - s.toAct] == s.wagers[1 - s.toAct] &&
            t.pot == s.pot + n - s.wagers[s.toAct] && t.toAct == s.toAct
  {
  }

  /** 'f' returns "terminal" at once, whatever follows it. */
  lemma FoldEndsParse(s: Snapshot, action: string, i: nat)
    requires WellShaped(s) && i < |action| && action[i] == 'f'
    ensures Run(s, action, i) == (s, Ok(Terminal))
  {
  }

  /** 'k', 'c' and 'b<n>' each pass the turn to the other player. */
  lemma MovesToggle(s: Snapshot, action: string, i: nat)
    requires WellShaped(s) && i < |action| && action[i] in "kcb"
    ensures Body(s, action, i).exit.None? ==> Body(s, action, i).s.toAct == 1 - s.toAct
  {
  }

  /** Every step keeps the pot at least the two wagers, with both
      non-negative: bet amounts are digit strings, so never negative. */
  lemma {:induction false} RunKeepsSane(s: Snapshot, action: string, i: nat)
    requires Sane(s) && i <= |action|
    ensures Sane(Run(s, action, i).0)
    decreases |action| - i
  {
    if i < |action| && Known(action[i]) {
      var p := Body(s, action, i);
      BodyAdvances(s, action, i);
      assert Sane(p.s) by {
        if action[i] == 'b' && p.exit.None? {
          var j := DigitsEnd(action, i + 1);
          BetKeepsSane(s, Decimal(action[i + 1..j]));
        }
      }
      if p.exit.None? {
        RunKeepsSane(p.s, action, p.i);
      }
    }
  }

  lemma BetKeepsSane(s: Snapshot, n: nat)
    requires Sane(s)
    ensures Sane(Toggle(BetTo(s, n)))
  {
  }

  /** A string made only of checks, calls and street markers is consumed to
      the end and returns "continue". */
  lemma {:induction false} PlainStringContinues(s: Snapshot, action: string, i: nat)
    requires WellShaped(s) && i <= |action|
    requires forall k :: i <= k < |action| ==> action[k] in "kc/"
    ensures Run(s, action, i).1 == Ok(Continue)
    decreases |action| - i
  {
    if i < |action| {
      assert action[i] in "kc/";
      PlainStringContinues(Body(s, action, i).s, action, i + 1);
    }
  }

  // ---------------------------------------------------------------------
  // The endless loop on an unknown character

  /** On a character outside "/kcfb" the body as written leaves `i` where
      it is and flips `to_act`, so two passes bring the loop back to the
      same state: the `while` never ends. */
  lemma UnknownCharCycles(s: Snapshot, action: string, i: nat)
    requires WellShaped(s) && i < |action| && !Known(action[i])
    ensures Body(s, action, i) == Pass(Toggle(s), i, None)
    ensures Body(Toggle(s), action, i) == Pass(s, i, None)
  {
  }

  /** `n` passes of the body as written, stopping at a return or at the end
      of the string. */
  function Passes(s: Snapshot, action: string, i: nat, n: nat): (p: Pass)
    requires WellShaped(s) && i <= |action|
    ensures p.i <= |action| && WellShaped(p.s)
    decreases n
  {
    if n == 0 || i == |action| then Pass(s, i, None)
    else
      var p := Body(s, action, i);
      if p.exit.Some? then p
      else if p.i <= |action| then Passes(p.s, action, p.i, n - 1)
      else Pass(s, i, None)
  }

  /** `apply("x")` on a fresh state: no number of passes leaves index 0 or
      returns a value. */
  lemma {:induction false} UnknownCharNeverEnds(s: Snapshot, n: nat)
    requires WellShaped(s)
    ensures Passes(s, "x", 0, n) == Pass(if n % 2 == 0 then s else Toggle(s), 0, None)
    decreases n
  {
    if n > 0 {
      UnknownCharCycles(s, "x", 0);
      UnknownCharNeverEnds(Toggle(s), n - 1);
      assert Toggle(Toggle(s)) == s;
    }
  }

  // ---------------------------------------------------------------------
  // Translation of a strategy action (lines 133-139)

  /** The decimal digits of `n`, as f-string formatting writes them. */
  function DecimalString(n: nat): (ds: string)
    ensures |ds| >= 1 && forall k :: 0 <= k < |ds| ==> IsDigit(ds[k])
  {
    if n < 10 then [('0' as int + n) as char]
    else DecimalString(n / 10) + [('0' as int + n % 10) as char]
  }

  /** Formatting and `int` round-trip. */
  lemma {:induction false} DecimalRoundTrip(n: nat)
    ensures Decimal(DecimalString(n)) == n
  {
    var ds := DecimalString(n);
    if n >= 10 {
      DecimalRoundTrip(n / 10);
      assert ds[..|ds| - 1] == DecimalString(n / 10);
    }
  }

  function MaxWager(s: Snapshot): int
    requires WellShaped(s)
  {
    if s.wagers[0] >= s.wagers[1] then s.wagers[0] else s.wagers[1]
  }

  /** The move sent to Slumbot for a sampled action. */
  function Translate(act: Action, s: Snapshot): string
    requires WellShaped(s) && MaxWager(s) + 2 * BB >= 0
  {
    if act == Fold && ToCallOf(s) > 0 then "f"
    else if act == Raise then "b" + DecimalString(MaxWager(s) + 2 * BB)
    else if ToCallOf(s) > 0 then "c" else "k"
  }

  /** A fold with nothing to call is sent as a check; a raise is always a
      bet to the largest wager plus two big blinds. */
  lemma TranslateCases(act: Action, s: Snapshot)
    requires WellShaped(s) && MaxWager(s) + 2 * BB >= 0
    ensures act == Fold && ToCallOf(s) == 0 ==> Translate(act, s) == "k"
    ensures act == Fold && ToCallOf(s) > 0 ==> Translate(act, s) == "f"
    ensures act == Call ==> Translate(act, s) == (if ToCallOf(s) > 0 then "c" else "k")
    ensures act == Raise ==> Translate(act, s)[0] == 'b'
  {
  }

  /** Replaying our own raise on the tracker: the mover's wager becomes the
      largest wager plus 200, the turn passes, and the parse continues. */
  lemma {:induction false} RaiseReplays(s: Snapshot)
    requires WellShaped(s) && MaxWager(s) + 2 * BB >= 0
    ensures ApplyTo(s, Translate(Raise, s)) ==
              (Toggle(BetTo(s, MaxWager(s) + 2 * BB)), Ok(Some(Continue)))
  {
    var n: nat := MaxWager(s) + 2 * BB;
    var ds := DecimalString(n);
    var a := "b" + ds;
    assert Translate(Raise, s) == a;
    assert a[0] == 'b' && Known(a[0]);
    assert forall k :: 1 <= k < |a| ==> a[k] == ds[k - 1];
    DigitsAll(a, 1);
    assert a[1..|a|] == ds;
    DecimalRoundTrip(n);
    var t := Toggle(BetTo(s, n));
    assert Body(s, a, 0) == Pass(t, |a|, None);
    RunStep(s, a, 0);
    assert Run(t, a, |a|) == (t, Ok(Continue));
    assert Run(s, a, 0) == (t, Ok(Continue));
  }

  lemma {:induction false} DigitsAll(a: string, j: nat)
    requires j <= |a| && forall k :: j <= k < |a| ==> IsDigit(a[k])
    ensures DigitsEnd(a, j) == |a|
    decreases |a| - j
  {
    if j < |a| {
      DigitsAll(a, j + 1);
    }
  }
}

/** The burn knobs of src/burn_knobs.py: a validated triple of knob values
    in [0, 1], the knob grid, the EV floor filter and the two edge cases of
    the action temperature. Dictionaries are insertion-ordered `Dict`s; the
    softmax used for temperatures strictly between 0 and 1 is a parameter. */
module BurnKnobs {
  import opened Wrappers
  import opened Dicts

  datatype BurnState = BurnState(rangeDistortion: real, actionEntropy: real, evFloor: real)

  /** The `ValueError` of `__post_init__`, naming the first bad field, and the
      `TypeError` of `cls(**data)` for wrong keyword names. */
  datatype BurnError = OutOfRange(field: string, value: real) | BadFields

  predicate InUnit(x: real) { 0.0 <= x <= 1.0 }

  predicate Valid(b: BurnState) {
    InUnit(b.rangeDistortion) && InUnit(b.actionEntropy) && InUnit(b.evFloor)
  }

  /** `BurnState(r, t, e)`: the fields are checked in declaration order. */
  function MakeBurnState(r: real, t: real, e: real): (res: Result<BurnState, BurnError>)
    ensures res.Ok? <==> Valid(BurnState(r, t, e))
    ensures res.Ok? ==> res.value == BurnState(r, t, e)
    ensures res.Err? ==> res.error.OutOfRange? && !InUnit(res.error.value)
    ensures !InUnit(r) ==> res == Err(OutOfRange("range_distortion", r))
  {
    if !InUnit(r) then Err(OutOfRange("range_distortion", r))
    else if !InUnit(t) then Err(OutOfRange("action_entropy", t))
    else if !InUnit(e) then Err(OutOfRange("ev_floor", e))
    else Ok(BurnState(r, t, e))
  }

  const FieldNames: seq<string> := ["range_distortion", "action_entropy", "ev_floor"]

  function ToDict(b: BurnState): (d: Dict<string, real>)
    ensures UniqueKeys(d) && Keys(d) == FieldNames
  {
    [("range_distortion", b.rangeDistortion), ("action_entropy", b.actionEntropy),
     ("ev_floor", b.evFloor)]
  }

  /** `cls(**data)`: every field must be named once, and nothing else. */
  function FromDict(d: Dict<string, real>): (res: Result<BurnState, BurnError>)
    requires UniqueKeys(d)
  {
    if |d| == 3 && HasKey(d, "range_distortion") && HasKey(d, "action_entropy") &&
       HasKey(d, "ev_floor") then
      MakeBurnState(Lookup(d, "range_distortion").value, Lookup(d, "action_entropy").value,
                    Lookup(d, "ev_floor").value)
    else Err(BadFields)
  }

  /** A valid state survives the trip through its dictionary. */
  lemma DictRoundTrip(b: BurnState)
    requires Valid(b)
    ensures FromDict(ToDict(b)) == Ok(b)
  {
    var d := ToDict(b);
    assert d[0].0 == FieldNames[0] && d[1].0 == FieldNames[1] && d[2].0 == FieldNames[2];
    LookupAt(d, 0);
    LookupAt(d, 1);
    LookupAt(d, 2);
  }

  /** Three distinct keys that include the three field names are exactly them. */
  lemma OnlyFields(d: Dict<string, real>)
    requires UniqueKeys(d) && |d| == 3
    requires HasKey(d, "range_distortion") && HasKey(d, "action_entropy") && HasKey(d, "ev_floor")
    ensures forall i :: 0 <= i < 3 ==> d[i].0 in FieldNames
  {
    var i0 :| 0 <= i0 < 3 && d[i0].0 == "range_distortion";
    var i1 :| 0 <= i1 < 3 && d[i1].0 == "action_entropy";
    var i2 :| 0 <= i2 < 3 && d[i2].0 == "ev_floor";
    assert {i0, i1, i2} == {0, 1, 2};
  }

  /** A dictionary that names some other key is refused, whatever its values. */
  lemma StrayKeyRefused(d: Dict<string, real>, k: string)
    requires UniqueKeys(d) && HasKey(d, k) && k !in FieldNames
    ensures FromDict(d) == Err(BadFields)
  {
    var p :| 0 <= p < |d| && d[p].0 == k;
    if |d| == 3 && HasKey(d, "range_distortion") && HasKey(d, "action_entropy") &&
       HasKey(d, "ev_floor") {
      OnlyFields(d);
    }
  }

  /** `get_ev_floor_bb`: the knob mapped to an EV floor in big blinds. */
  function EvFloorBb(b: BurnState): (r: real)
    ensures Valid(b) ==> -10.0 <= r <= 0.0
    ensures r == 0.0 <==> b.evFloor == 0.0
    ensures b.evFloor > 0.0 ==> r < 0.0
  {
    b.evFloor * -10.0
  }

  // ---------------------------------------------------------------- grid

  const DefaultKnobs: seq<real> := [0.0, 0.25, 0.5, 0.75, 1.0]

  /** One iteration of the nested loops: the values of `r`, `t` and `e`. */
  datatype Knobs = Knobs(r: real, t: real, e: real)

  /** The innermost loop: `e` runs over the knob values. */
  function Row(ks: seq<real>, r: real, t: real): (row: seq<Knobs>)
    ensures |row| == |ks|
  {
    seq(|ks|, k requires 0 <= k < |ks| => Knobs(r, t, ks[k]))
  }

  /** Iteration `k` of the innermost loop visits `(r, t, ks[k])`. */
  lemma RowAt(ks: seq<real>, r: real, t: real, k: nat)
    requires k < |ks|
    ensures Row(ks, r, t)[k] == Knobs(r, t, ks[k])
  {
  }

  /** The first `m` rows of the middle loop, for outer value `r`. */
  function Plane(ks: seq<real>, r: real, m: nat): seq<Knobs>
    requires m <= |ks|
  {
    if m == 0 then [] else Plane(ks, r, m - 1) + Row(ks, r, ks[m - 1])
  }

  /** The first `m` iterations of the outer loop. */
  function Cube(ks: seq<real>, m: nat): seq<Knobs>
    requires m <= |ks|
  {
    if m == 0 then [] else Cube(ks, m - 1) + Plane(ks, ks[m - 1], |ks|)
  }

  /** The knob triples in the order the three nested loops visit them. */
  function Grid(ks: seq<real>): seq<Knobs> {
    Cube(ks, |ks|)
  }

  /** Later rows leave the earlier positions of a plane alone. */
  lemma {:induction false} PlaneKeeps(ks: seq<real>, r: real, a: nat, b: nat, x: nat)
    requires a <= b <= |ks| && x < |Plane(ks, r, a)|
    ensures x < |Plane(ks, r, b)| && Plane(ks, r, b)[x] == Plane(ks, r, a)[x]
    decreases b - a
  {
    if a < b {
      PlaneKeeps(ks, r, a + 1, b, x);
    }
  }

  /** Later planes leave the earlier positions of the grid alone. */
  lemma {:induction false} CubeKeeps(ks: seq<real>, a: nat, b: nat, x: nat)
    requires a <= b <= |ks| && x < |Cube(ks, a)|
    ensures x < |Cube(ks, b)| && Cube(ks, b)[x] == Cube(ks, a)[x]
    decreases b - a
  {
    if a < b {
      CubeKeeps(ks, a + 1, b, x);
    }
  }

  /** Row `j` of a plane starts right after the first `j` rows. */
  lemma PlaneAt(ks: seq<real>, r: real, j: nat, k: nat, y: nat)
    requires j < |ks| && k < |ks| && y == |Plane(ks, r, j)| + k
    ensures y < |Plane(ks, r, |ks|)|
    ensures Plane(ks, r, |ks|)[y] == Knobs(r, ks[j], ks[k])
  {
    RowAt(ks, r, ks[j], k);
    assert Plane(ks, r, j + 1)[y] == Row(ks, r, ks[j])[k];
    PlaneKeeps(ks, r, j + 1, |ks|, y);
  }

  lemma {:induction false} PlaneLength(ks: seq<real>, r: real, m: nat)
    requires m <= |ks|
    ensures |Plane(ks, r, m)| == m * |ks|
  {
    if m > 0 {
      PlaneLength(ks, r, m - 1);
      assert (m - 1) * |ks| + |ks| == m * |ks|;
    }
  }

  lemma {:induction false} CubeLength(ks: seq<real>, m: nat)
    requires m <= |ks|
    ensures |Cube(ks, m)| == m * (|ks| * |ks|)
  {
    if m > 0 {
      CubeLength(ks, m - 1);
      PlaneLength(ks, ks[m - 1], |ks|);
      var nn := |ks| * |ks|;
      assert (m - 1) * nn + nn == m * nn;
    }
  }

  lemma Nest(i: nat, j: nat, k: nat, n: nat)
    ensures (i * n + j) * n + k == i * (n * n) + (j * n + k)
  {
    calc {
      (i * n + j) * n + k;
      (i * n) * n + j * n + k;
      { assert (i * n) * n == i * (n * n); }
      i * (n * n) + (j * n + k);
    }
  }

  /** Outer iteration `i` starts right after the first `i` planes. */
  lemma CubeAt(ks: seq<real>, i: nat, j: nat, k: nat, y: nat, x: nat)
    requires i < |ks| && j < |ks| && k < |ks|
    requires y == |Plane(ks, ks[i], j)| + k && x == |Cube(ks, i)| + y
    ensures x < |Grid(ks)|
    ensures Grid(ks)[x] == Knobs(ks[i], ks[j], ks[k])
  {
    PlaneAt(ks, ks[i], j, k, y);
    CubeStep(ks, i, y, x);
    CubeKeeps(ks, i + 1, |ks|, x);
  }

  lemma CubeStep(ks: seq<real>, i: nat, y: nat, x: nat)
    requires i < |ks| && y < |Plane(ks, ks[i], |ks|)| && x == |Cube(ks, i)| + y
    ensures x < |Cube(ks, i + 1)| && Cube(ks, i + 1)[x] == Plane(ks, ks[i], |ks|)[y]
  {
    var c := Cube(ks, i);
    var p := Plane(ks, ks[i], |ks|);
    assert Cube(ks, i + 1) == c + p;
  }

  /** `generate_burn_states` yields |k|^3 triples, r outermost and e
      innermost: triple (i, j, k) sits at position (i*|k| + j)*|k| + k. */
  lemma GridShape(ks: seq<real>, i: nat, j: nat, k: nat) returns (x: nat)
    requires i < |ks| && j < |ks| && k < |ks|
    ensures |Grid(ks)| == |ks| * (|ks| * |ks|)
    ensures x == (i * |ks| + j) * |ks| + k && x < |Grid(ks)|
    ensures Grid(ks)[x] == Knobs(ks[i], ks[j], ks[k])
  {
    CubeLength(ks, |ks|);
    CubeLength(ks, i);
    PlaneLength(ks, ks[i], j);
    Nest(i, j, k, |ks|);
    x := (i * |ks| + j) * |ks| + k;
    CubeAt(ks, i, j, k, j * |ks| + k, x);
  }

  /** Everything the grid visits is built from the knob values. */
  lemma {:induction false} GridFrom(ks: seq<real>, m: nat, x: nat)
    requires m <= |ks| && x < |Cube(ks, m)|
    ensures Cube(ks, m)[x].r in ks && Cube(ks, m)[x].t in ks && Cube(ks, m)[x].e in ks
  {
    var prev := Cube(ks, m - 1);
    if x < |prev| {
      GridFrom(ks, m - 1, x);
    } else {
      PlaneFrom(ks, ks[m - 1], |ks|, x - |prev|);
    }
  }

  lemma {:induction false} PlaneFrom(ks: seq<real>, r: real, m: nat, x: nat)
    requires m <= |ks| && x < |Plane(ks, r, m)|
    ensures Plane(ks, r, m)[x].r == r && Plane(ks, r, m)[x].t in ks && Plane(ks, r, m)[x].e in ks
  {
    var prev := Plane(ks, r, m - 1);
    if x < |prev| {
      PlaneFrom(ks, r, m - 1, x);
    } else {
      RowAt(ks, r, ks[m - 1], x - |prev|);
    }
  }

  predicate ValidKnobs(t: Knobs) { InUnit(t.r) && InUnit(t.t) && InUnit(t.e) }

  /** Constructing the states one by one; the first failure is raised. */
  function Build(ts: seq<Knobs>): Result<seq<BurnState>, BurnError> {
    if |ts| == 0 then Ok([])
    else
      var t := ts[|ts| - 1];
      match Build(ts[..|ts| - 1])
      case Err(e) => Err(e)
      case Ok(ss) =>
        match MakeBurnState(t.r, t.t, t.e)
        case Err(e) => Err(e)
        case Ok(b) => Ok(ss + [b])
  }

  /** Building succeeds exactly when every triple is valid, and then yields
      the states of the triples in order. */
  lemma {:induction false} BuildFacts(ts: seq<Knobs>)
    ensures Build(ts).Ok? <==> forall i :: 0 <= i < |ts| ==> ValidKnobs(ts[i])
    ensures Build(ts).Ok? ==> |Build(ts).value| == |ts|
    ensures Build(ts).Ok? ==>
      forall i :: 0 <= i < |ts| ==> Build(ts).value[i] == BurnState(ts[i].r, ts[i].t, ts[i].e)
  {
    if |ts| > 0 {
      var init := ts[..|ts| - 1];
      BuildFacts(init);
      assert forall i :: 0 <= i < |ts| - 1 ==> ts[i] == init[i];
    }
  }

  /** Once construction has failed, later triples do not matter. */
  lemma {:induction false} BuildErrPrefix(xs: seq<Knobs>, ys: seq<Knobs>)
    requires xs <= ys && Build(xs).Err?
    ensures Build(ys) == Build(xs)
  {
    if |ys| > |xs| {
      var init := ys[..|ys| - 1];
      assert xs <= init;
      BuildErrPrefix(xs, init);
    } else {
      assert xs == ys;
    }
  }

  lemma PlanePrefix(ks: seq<real>, r: real, a: nat, b: nat)
    requires a <= b <= |ks|
    ensures Plane(ks, r, a) <= Plane(ks, r, b)
    decreases b - a
  {
    if a < b {
      PlanePrefix(ks, r, a, b - 1);
    }
  }

  lemma CubePrefix(ks: seq<real>, a: nat, b: nat)
    requires a <= b <= |ks|
    ensures Cube(ks, a) <= Cube(ks, b)
    decreases b - a
  {
    if a < b {
      CubePrefix(ks, a, b - 1);
    }
  }

  /** Where the loops stand at outer `a`, middle `b`, inner `c`, as a
      prefix of the whole grid. */
  function Visited(ks: seq<real>, a: nat, b: nat, c: nat): seq<Knobs>
    requires a < |ks| && b < |ks| && c <= |ks|
  {
    Cube(ks, a) + Plane(ks, ks[a], b) + Row(ks, ks[a], ks[b])[..c]
  }

  lemma PrefixTrans<T>(a: seq<T>, b: seq<T>, c: seq<T>)
    requires a <= b && b <= c
    ensures a <= c
  {
    assert c[..|b|][..|a|] == c[..|a|];
  }

  lemma PrefixExtend<T>(p: seq<T>, a: seq<T>, b: seq<T>)
    requires a <= b
    ensures p + a <= p + b
  {
    assert (p + b)[..|p + a|] == p + b[..|a|];
  }

  lemma VisitedIsPrefix(ks: seq<real>, a: nat, b: nat, c: nat)
    requires a < |ks| && b < |ks| && c <= |ks|
    ensures Visited(ks, a, b, c) <= Grid(ks)
  {
    var n := |ks|;
    var cube := Cube(ks, a);
    var partial := Plane(ks, ks[a], b) + Row(ks, ks[a], ks[b])[..c];
    VisitedInPlane(ks, a, b, c);
    PrefixExtend(cube, partial, Plane(ks, ks[a], n));
    assert Visited(ks, a, b, c) == cube + partial;
    assert cube + Plane(ks, ks[a], n) == Cube(ks, a + 1);
    CubePrefix(ks, a + 1, n);
    PrefixTrans(Visited(ks, a, b, c), Cube(ks, a + 1), Grid(ks));
  }

  /** Within the middle loop, what is visited is a prefix of the whole plane. */
  lemma VisitedInPlane(ks: seq<real>, a: nat, b: nat, c: nat)
    requires a < |ks| && b < |ks| && c <= |ks|
    ensures Plane(ks, ks[a], b) + Row(ks, ks[a], ks[b])[..c] <= Plane(ks, ks[a], |ks|)
  {
    var plane := Plane(ks, ks[a], b);
    var row := Row(ks, ks[a], ks[b]);
    PlaneStep(ks, ks[a], b);
    PlanePrefix(ks, ks[a], b + 1, |ks|);
    PrefixChain(plane, row, c, Plane(ks, ks[a], |ks|));
  }

  lemma PlaneStep(ks: seq<real>, r: real, b: nat)
    requires b < |ks|
    ensures Plane(ks, r, b + 1) == Plane(ks, r, b) + Row(ks, r, ks[b])
  {
  }

  lemma PrefixChain<T>(p: seq<T>, r: seq<T>, c: nat, whole: seq<T>)
    requires c <= |r| && p + r <= whole
    ensures p + r[..c] <= whole
  {
    PrefixExtend(p, r[..c], r);
    PrefixTrans(p + r[..c], p + r, whole);
  }

  lemma VisitedStep(ks: seq<real>, a: nat, b: nat, c: nat)
    requires a < |ks| && b < |ks| && c < |ks|
    ensures Visited(ks, a, b, c + 1) == Visited(ks, a, b, c) + [Knobs(ks[a], ks[b], ks[c])]
  {
    var row := Row(ks, ks[a], ks[b]);
    RowAt(ks, ks[a], ks[b], c);
    assert row[..c + 1] == row[..c] + [row[c]];
  }

  /** A row starts where the previous rows end and ends where the next begins. */
  lemma VisitedEnds(ks: seq<real>, a: nat, b: nat)
    requires a < |ks| && b < |ks|
    ensures Visited(ks, a, b, 0) == Cube(ks, a) + Plane(ks, ks[a], b)
    ensures Visited(ks, a, b, |ks|) == Cube(ks, a) + Plane(ks, ks[a], b + 1)
  {
    var row := Row(ks, ks[a], ks[b]);
    assert row[..0] == [];
    assert row[..|ks|] == row;
  }

  function GenerateBurnStatesSpec(ks: seq<real>): Result<seq<BurnState>, BurnError> {
    Build(Grid(ks))
  }

  /** `generate_burn_states`: nested loops appending one state per triple;
      the innermost loop is `AppendRow`. */
  method GenerateBurnStates(ks: seq<real>) returns (res: Result<seq<BurnState>, BurnError>)
    ensures res == GenerateBurnStatesSpec(ks)
  {
    var states: seq<BurnState> := [];
    for a := 0 to |ks|
      invariant Build(Cube(ks, a)) == Ok(states)
    {
      var plane := AppendPlane(ks, a, states);
      if plane.Err? {
        return plane;
      }
      states := plane.value;
    }
    return Ok(states);
  }

  /** The `for t in knob_values` loop for the outer value `ks[a]`. */
  method AppendPlane(ks: seq<real>, a: nat, states0: seq<BurnState>)
    returns (res: Result<seq<BurnState>, BurnError>)
    requires a < |ks| && Build(Cube(ks, a)) == Ok(states0)
    ensures res.Ok? ==> res == Build(Cube(ks, a + 1))
    ensures res.Err? ==> res == Build(Grid(ks))
  {
    var states := states0;
    assert Cube(ks, a) + Plane(ks, ks[a], 0) == Cube(ks, a);
    for b := 0 to |ks|
      invariant Build(Cube(ks, a) + Plane(ks, ks[a], b)) == Ok(states)
    {
      var row := AppendRow(ks, a, b, states);
      if row.Err? {
        return row;
      }
      states := row.value;
    }
    assert Cube(ks, a) + Plane(ks, ks[a], |ks|) == Cube(ks, a + 1);
    return Ok(states);
  }

  /** The `for e in knob_values` loop for outer values `ks[a]` and `ks[b]`;
      an error ends the whole generation. */
  method AppendRow(ks: seq<real>, a: nat, b: nat, states0: seq<BurnState>)
    returns (res: Result<seq<BurnState>, BurnError>)
    requires a < |ks| && b < |ks| && Build(Cube(ks, a) + Plane(ks, ks[a], b)) == Ok(states0)
    ensures res.Ok? ==> res == Build(Cube(ks, a) + Plane(ks, ks[a], b + 1))
    ensures res.Err? ==> res == Build(Grid(ks))
  {
    VisitedEnds(ks, a, b);
    var states := states0;
    for c := 0 to |ks|
      invariant Build(Visited(ks, a, b, c)) == Ok(states)
    {
      var s := MakeBurnState(ks[a], ks[b], ks[c]);
      VisitedStep(ks, a, b, c);
      if s.Err? {
        VisitedIsPrefix(ks, a, b, c + 1);
        BuildErrPrefix(Visited(ks, a, b, c + 1), Grid(ks));
        return Err(s.error);
      }
      states := states + [s.value];
    }
    return Ok(states);
  }

  /** Generation succeeds exactly when every knob value is in [0, 1]. */
  lemma GenerateSucceeds(ks: seq<real>)
    ensures GenerateBurnStatesSpec(ks).Ok? <==> forall i :: 0 <= i < |ks| ==> InUnit(ks[i])
  {
    var g := Grid(ks);
    BuildFacts(g);
    if forall i :: 0 <= i < |ks| ==> InUnit(ks[i]) {
      forall x | 0 <= x < |g| ensures ValidKnobs(g[x]) {
        GridFrom(ks, |ks|, x);
      }
    } else {
      var p :| 0 <= p < |ks| && !InUnit(ks[p]);
      var x := GridShape(ks, p, p, p);
      assert !ValidKnobs(g[x]);
    }
  }

  /** A successful generation yields one state per knob triple, in loop order. */
  lemma GenerateOrder(ks: seq<real>, i: nat, j: nat, k: nat) returns (x: nat)
    requires forall i :: 0 <= i < |ks| ==> InUnit(ks[i])
    requires i < |ks| && j < |ks| && k < |ks|
    ensures GenerateBurnStatesSpec(ks).Ok?
    ensures |GenerateBurnStatesSpec(ks).value| == |ks| * (|ks| * |ks|)
    ensures x == (i * |ks| + j) * |ks| + k && x < |GenerateBurnStatesSpec(ks).value|
    ensures GenerateBurnStatesSpec(ks).value[x] == BurnState(ks[i], ks[j], ks[k])
  {
    GenerateSucceeds(ks);
    BuildFacts(Grid(ks));
    x := GridShape(ks, i, j, k);
  }

  /** The default grid has 5^3 = 125 states; the first is all zeros and the
      last all ones. */
  lemma DefaultGrid()
    ensures GenerateBurnStatesSpec(DefaultKnobs).Ok?
    ensures |GenerateBurnStatesSpec(DefaultKnobs).value| == 125
    ensures GenerateBurnStatesSpec(DefaultKnobs).value[0] == BurnState(0.0, 0.0, 0.0)
    ensures GenerateBurnStatesSpec(DefaultKnobs).value[124] == BurnState(1.0, 1.0, 1.0)
  {
    var first := GenerateOrder(DefaultKnobs, 0, 0, 0);
    var last := GenerateOrder(DefaultKnobs, 4, 4, 4);
  }

  // ------------------------------------------------------------ EV floor

  /** `{a: ev for a, ev in evs.items() if ev >= floor}` */
  function AtLeast<K>(d: Dict<K, real>, floor: real): (r: Dict<K, real>)
    ensures |r| <= |d|
    ensures forall i :: 0 <= i < |r| ==> r[i] in d && r[i].1 >= floor
    ensures forall i :: 0 <= i < |d| && d[i].1 >= floor ==> d[i] in r
    ensures |r| == 0 <==> forall i :: 0 <= i < |d| ==> d[i].1 < floor
  {
    if |d| == 0 then []
    else
      var init := d[..|d| - 1];
      assert forall i :: 0 <= i < |d| - 1 ==> d[i] == init[i];
      if d[|d| - 1].1 >= floor then AtLeast(init, floor) + [d[|d| - 1]]
      else AtLeast(init, floor)
  }

  lemma {:induction false} AtLeastUnique<K>(d: Dict<K, real>, floor: real)
    requires UniqueKeys(d)
    ensures UniqueKeys(AtLeast(d, floor))
  {
    if |d| > 0 {
      var init := d[..|d| - 1];
      AtLeastUnique(init, floor);
      var r := AtLeast(init, floor);
      forall i | 0 <= i < |r| ensures r[i].0 != d[|d| - 1].0 {
        assert r[i] in init;
      }
    }
  }

  /** The position of the first largest value: `max(d, key=d.get)` and
      `np.argmax` both return the first maximum. */
  function FirstMax(vs: seq<real>): (m: nat)
    requires |vs| > 0
    ensures m < |vs|
    ensures forall j :: 0 <= j < |vs| ==> vs[j] <= vs[m]
    ensures forall j :: 0 <= j < m ==> vs[j] < vs[m]
  {
    if |vs| == 1 then 0
    else
      var m := FirstMax(vs[..|vs| - 1]);
      if vs[|vs| - 1] > vs[m] then |vs| - 1 else m
  }

  /** `apply_ev_floor` */
  function ApplyEvFloor<K>(evs: Dict<K, real>, floor: real): (r: Dict<K, real>)
  {
    if |evs| == 0 then []
    else if |AtLeast(evs, floor)| > 0 then AtLeast(evs, floor)
    else
      var best := evs[FirstMax(Values(evs))];
      [best]
  }

  /** The entries that meet the floor are kept; when none does, the first
      entry of largest EV is kept alone; an empty input stays empty. */
  lemma EvFloorKeeps<K>(evs: Dict<K, real>, floor: real)
    requires UniqueKeys(evs)
    ensures UniqueKeys(ApplyEvFloor(evs, floor))
    ensures |evs| == 0 <==> |ApplyEvFloor(evs, floor)| == 0
    ensures (exists i :: 0 <= i < |evs| && evs[i].1 >= floor) ==>
      ApplyEvFloor(evs, floor) == AtLeast(evs, floor)
    ensures |evs| > 0 && (forall i :: 0 <= i < |evs| ==> evs[i].1 < floor) ==>
      exists m :: 0 <= m < |evs| && ApplyEvFloor(evs, floor) == [evs[m]] &&
        (forall j :: 0 <= j < |evs| ==> evs[j].1 <= evs[m].1) &&
        (forall j :: 0 <= j < m ==> evs[j].1 < evs[m].1)
  {
    AtLeastUnique(evs, floor);
    if exists i :: 0 <= i < |evs| && evs[i].1 >= floor {
      var i :| 0 <= i < |evs| && evs[i].1 >= floor;
      assert evs[i] in AtLeast(evs, floor);
    } else if |evs| > 0 {
      var vs := Values(evs);
      var m := FirstMax(vs);
      assert ApplyEvFloor(evs, floor) == [evs[m]];
    }
  }

  // --------------------------------------------------------- temperature

  /** The softmax scaling for temperatures strictly between 0 and 1, which
      works in floating point and is taken as given. */
  type Softmax<!K> = (Dict<K, real>, real) -> Dict<K, real>

  /** `{a: 0.0 for a in actions}` followed by `result[actions[m]] = 1.0`. */
  function OneHot<K(==)>(probs: Dict<K, real>, m: nat): Dict<K, real>
    requires m < |probs|
  {
    Put(Fill(probs, 0.0), probs[m].0, 1.0)
  }

  /** In a dict, the one-hot result has the same keys, 1 at `m` and 0 elsewhere. */
  lemma OneHotShape<K>(probs: Dict<K, real>, m: nat)
    requires UniqueKeys(probs) && m < |probs|
    ensures |OneHot(probs, m)| == |probs|
    ensures forall i :: 0 <= i < |probs| ==> OneHot(probs, m)[i] == (probs[i].0, if i == m then 1.0 else 0.0)
  {
    var z := Fill(probs, 0.0);
    assert z[m].0 == probs[m].0;
    var r := Put(z, probs[m].0, 1.0);
    forall i | 0 <= i < |probs| ensures r[i] == (probs[i].0, if i == m then 1.0 else 0.0) {
      assert z[i].0 == probs[i].0;
    }
  }

  /** `apply_action_temperature` */
  function ApplyTemperature<K(==)>(probs: Dict<K, real>, t: real, softmax: Softmax<K>): Dict<K, real> {
    if |probs| == 0 then []
    else if t == 0.0 then OneHot(probs, FirstMax(Values(probs)))
    else if t == 1.0 then Fill(probs, 1.0 / |probs| as real)
    else softmax(probs, t)
  }

  /** Temperature 0: all weight on the first most likely action, the same keys. */
  lemma ArgmaxAtZero<K>(probs: Dict<K, real>, softmax: Softmax<K>, m: nat)
    requires UniqueKeys(probs) && |probs| > 0 && m == FirstMax(Values(probs))
    ensures forall j :: 0 <= j < |probs| ==> probs[j].1 <= probs[m].1
    ensures forall j :: 0 <= j < m ==> probs[j].1 < probs[m].1
    ensures |ApplyTemperature(probs, 0.0, softmax)| == |probs|
    ensures forall i :: 0 <= i < |probs| ==>
      ApplyTemperature(probs, 0.0, softmax)[i] == (probs[i].0, if i == m then 1.0 else 0.0)
    ensures Total(ApplyTemperature(probs, 0.0, softmax)) == 1.0
  {
    assert ApplyTemperature(probs, 0.0, softmax) == OneHot(probs, m);
    FirstMaxEntry(probs, m);
    OneHotShape(probs, m);
    OneHotTotal(probs, m);
  }

  /** The first most likely entry of a dict is at least every entry and
      above every earlier one. */
  lemma FirstMaxEntry<K>(probs: Dict<K, real>, m: nat)
    requires |probs| > 0 && m == FirstMax(Values(probs))
    ensures forall j :: 0 <= j < |probs| ==> probs[j].1 <= probs[m].1
    ensures forall j :: 0 <= j < m ==> probs[j].1 < probs[m].1
  {
    forall j | 0 <= j < |probs| ensures probs[j].1 <= probs[m].1 && (j < m ==> probs[j].1 < probs[m].1) {
      FirstMaxAt(Values(probs), m, j);
    }
  }

  lemma FirstMaxAt(vs: seq<real>, m: nat, j: nat)
    requires |vs| > 0 && m == FirstMax(vs) && j < |vs|
    ensures vs[j] <= vs[m] && (j < m ==> vs[j] < vs[m])
  {
  }

  /** A one-hot dict sums to 1. */
  lemma OneHotTotal<K>(probs: Dict<K, real>, m: nat)
    requires UniqueKeys(probs) && m < |probs|
    ensures Total(OneHot(probs, m)) == 1.0
  {
    var r := OneHot(probs, m);
    OneHotShape(probs, m);
    var vs := Values(r);
    assert forall i :: 0 <= i < |vs| ==> vs[i] == r[i].1;
    SumOneHot(vs, m, 1.0);
  }

  /** Temperature 1: the uniform distribution over the same keys. */
  lemma UniformAtOne<K>(probs: Dict<K, real>, softmax: Softmax<K>)
    requires UniqueKeys(probs) && |probs| > 0
    ensures var r := ApplyTemperature(probs, 1.0, softmax);
      Keys(r) == Keys(probs) && UniqueKeys(r) &&
      (forall i :: 0 <= i < |r| ==> r[i].1 == 1.0 / |probs| as real) &&
      Total(r) == 1.0
  {
    var u := 1.0 / |probs| as real;
    var r := Fill(probs, u);
    SameKeys(probs, r);
    SumConstant(Values(r), u);
  }

  lemma EmptyStaysEmpty<K>(t: real, softmax: Softmax<K>)
    ensures ApplyTemperature([], t, softmax) == []
  {
  }
}

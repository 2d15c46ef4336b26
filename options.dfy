/**
 * ObjectOptions and the reading of one configuration entry into it: the
 * `groups` array, the six named toggles and the `scale` array.
 */
module Options {
  import opened Wrappers
  import opened Json

  /** Exactly six flags, in the order of ToggleKeys. */
  type Toggles = t: seq<bool> | |t| == 6 witness [false, false, false, false, false, false]

  const DefaultToggles: Toggles := [false, false, false, false, false, false]

  /** The toggle names, position by position. */
  const ToggleKeys: seq<string> := ["dont-fade", "dont-enter", "no-effects", "no-touch", "no-particles", "no-glow"]

  datatype ObjectOptions = ObjectOptions(groups: set<int>, toggles: Toggles, scaleX: real, scaleY: real)

  /** A freshly constructed ObjectOptions: no groups, every toggle off, scale 1 on both axes. */
  const DefaultOptions: ObjectOptions := ObjectOptions({}, DefaultToggles, 1.0, 1.0)

  /** The conversion of a JSON number to a group `int`, which truncates toward zero. */
  function TruncToInt(x: real): (r: int)
    ensures 0.0 <= x ==> r as real <= x < r as real + 1.0
    ensures x < 0.0 ==> r as real - 1.0 < x <= r as real
  {
    if x >= 0.0 then x.Floor else -((-x).Floor)
  }

  // ---------------------------------------------------------------- groups

  /** The groups an array contributes: every numeric element, truncated; anything else is ignored. */
  function GroupsOf(arr: seq<Json>): set<int> {
    set i | 0 <= i < |arr| && arr[i].JNum? :: TruncToInt(arr[i].n)
  }

  lemma GroupsOfSnoc(arr: seq<Json>, x: Json)
    ensures GroupsOf(arr + [x]) == GroupsOf(arr) + (if x.JNum? then {TruncToInt(x.n)} else {})
  {
    var a := arr + [x];
    forall g | g in GroupsOf(a) ensures g in GroupsOf(arr) + (if x.JNum? then {TruncToInt(x.n)} else {}) {
      var i :| 0 <= i < |a| && a[i].JNum? && TruncToInt(a[i].n) == g;
      if i < |arr| { assert arr[i] == a[i]; }
    }
    forall g | g in GroupsOf(arr) ensures g in GroupsOf(a) {
      var i :| 0 <= i < |arr| && arr[i].JNum? && TruncToInt(arr[i].n) == g;
      assert a[i] == arr[i];
    }
    if x.JNum? {
      assert a[|arr|] == x;
    }
  }

  /** The loop over a `groups` array: insert every numeric element. */
  method CollectGroups(arr: seq<Json>) returns (groups: set<int>)
    ensures groups == GroupsOf(arr)
  {
    groups := {};
    var i := 0;
    while i < |arr|
      invariant 0 <= i <= |arr|
      invariant groups == GroupsOf(arr[..i])
    {
      if arr[i].JNum? {
        groups := groups + {TruncToInt(arr[i].n)};
      }
      assert arr[..i + 1] == arr[..i] + [arr[i]];
      GroupsOfSnoc(arr[..i], arr[i]);
      i := i + 1;
    }
    assert arr[..i] == arr;
  }

  // --------------------------------------------------------------- toggles

  /** A toggle is on exactly when the toggles value maps its name to the boolean true. */
  predicate ToggleOn(toggles: Json, key: string) {
    Get(toggles, key) == Some(JBool(true))
  }

  /** The six flags a `toggles` value describes. */
  function TogglesOf(toggles: Json): Toggles {
    seq(6, i requires 0 <= i < 6 => ToggleOn(toggles, ToggleKeys[i]))
  }

  /**
   * The loop over ToggleKeys with its counter: a key that is present with a
   * boolean value sets its position; any other key leaves it false.
   */
  method ReadToggles(toggles: Json) returns (flags: Toggles)
    ensures forall i :: 0 <= i < 6 ==> (flags[i] <==> Get(toggles, ToggleKeys[i]) == Some(JBool(true)))
    ensures flags == TogglesOf(toggles)
  {
    flags := DefaultToggles;
    var i := 0;
    while i < 6
      invariant 0 <= i <= 6
      invariant forall j :: 0 <= j < i ==> (flags[j] <==> ToggleOn(toggles, ToggleKeys[j]))
      invariant forall j :: i <= j < 6 ==> !flags[j]
    {
      var v := Get(toggles, ToggleKeys[i]);
      if v.Some? && v.value.JBool? {
        flags := flags[i := v.value.b];
      }
      i := i + 1;
    }
  }

  // ----------------------------------------------------------------- scale

  /** How many elements at the front of `arr` are numbers. */
  function NumericPrefix(arr: seq<Json>): (k: nat)
    ensures k <= |arr|
    ensures forall j :: 0 <= j < k ==> arr[j].JNum?
    ensures k < |arr| ==> !arr[k].JNum?
  {
    if |arr| > 0 && arr[0].JNum? then 1 + NumericPrefix(arr[1..]) else 0
  }

  /**
   * The scale a `scale` array describes. Only the numeric prefix is read. A
   * one-element array sets both axes; otherwise element 0 sets X and each
   * later element of the prefix overwrites Y, so the last one wins. An axis
   * nothing was read for stays 1.
   */
  function ScaleOf(arr: seq<Json>): (real, real) {
    var k := NumericPrefix(arr);
    if |arr| == 1 then
      (if k == 1 then (arr[0].n, arr[0].n) else (1.0, 1.0))
    else
      (if k >= 1 then arr[0].n else 1.0, if k >= 2 then arr[k - 1].n else 1.0)
  }

  /** The loop over a `scale` array, with its counter and its two early exits. */
  method ReadScale(arr: seq<Json>) returns (scaleX: real, scaleY: real)
    ensures (scaleX, scaleY) == ScaleOf(arr)
  {
    scaleX, scaleY := 1.0, 1.0;
    // The source keeps a separate counter beside its range-for; both advance together.
    var i := 0;
    while i < |arr|
      invariant 0 <= i <= |arr|
      invariant forall j :: 0 <= j < i ==> arr[j].JNum?
      invariant |arr| == 1 ==> i == 0
      invariant scaleX == if i >= 1 then arr[0].n else 1.0
      invariant scaleY == if i >= 2 then arr[i - 1].n else 1.0
    {
      if !arr[i].JNum? {
        break;
      }
      var scale := arr[i].n;
      if |arr| == 1 {
        scaleX := scale;
        scaleY := scale;
        break;
      } else {
        if i == 0 {
          scaleX := scale;
        } else {
          scaleY := scale;
        }
      }
      i := i + 1;
    }
  }

  /** The worked examples of the scale rule. */
  lemma ScaleExamples()
    ensures ScaleOf([JNum(2.0)]) == (2.0, 2.0)
    ensures ScaleOf([JNum(2.0), JNum(3.0)]) == (2.0, 3.0)
    ensures ScaleOf([JNum(2.0), JStr("x")]) == (2.0, 1.0)
    ensures ScaleOf([JStr("x"), JNum(3.0)]) == (1.0, 1.0)
    ensures ScaleOf([JNum(2.0), JNum(3.0), JNum(4.0)]) == (2.0, 4.0)
    ensures ScaleOf([]) == (1.0, 1.0)
  {
    assert NumericPrefix([JNum(3.0)]) == 1;
    assert NumericPrefix([JNum(3.0), JNum(4.0)]) == 2;
  }

  /**
   * Only the numeric prefix matters: whatever follows the first non-numeric
   * element is never read.
   */
  lemma {:induction false} ScaleIgnoresTail(arr: seq<Json>, k: nat, tail: seq<Json>)
    requires k < |arr| && !arr[k].JNum? && forall j :: 0 <= j < k ==> arr[j].JNum?
    ensures ScaleOf(arr[..k + 1] + tail) == ScaleOf(arr)
  {
    NumericPrefixAt(arr, k);
    NumericPrefixAt(arr[..k + 1] + tail, k);
  }

  /** The numeric prefix ends at the first element that is not a number. */
  lemma {:induction false} NumericPrefixAt(arr: seq<Json>, k: nat)
    requires k < |arr| && !arr[k].JNum? && forall j :: 0 <= j < k ==> arr[j].JNum?
    ensures NumericPrefix(arr) == k
  {
    if k > 0 {
      NumericPrefixAt(arr[1..], k - 1);
    }
  }

  // ----------------------------------------------------------------- entry

  /** The options one configuration entry describes; fields of the wrong kind are ignored. */
  function EntryOptions(value: Json): ObjectOptions {
    ObjectOptions(
      match Get(value, "groups") case Some(JArr(a)) => GroupsOf(a) case _ => {},
      match Get(value, "toggles") case Some(t) => TogglesOf(t) case None => DefaultToggles,
      ScaleOf(match Get(value, "scale") case Some(JArr(a)) => a case _ => []).0,
      ScaleOf(match Get(value, "scale") case Some(JArr(a)) => a case _ => []).1)
  }

  /** The body of the per-entry loop: start from the defaults and read the three fields. */
  method ParseEntry(value: Json) returns (options: ObjectOptions)
    ensures options == EntryOptions(value)
  {
    options := DefaultOptions;
    var groups := Get(value, "groups");
    if groups.Some? && groups.value.JArr? {
      var g := CollectGroups(groups.value.elems);
      options := options.(groups := g);
    }
    var toggles := Get(value, "toggles");
    if toggles.Some? {
      var t := ReadToggles(toggles.value);
      options := options.(toggles := t);
    }
    var scale := Get(value, "scale");
    if scale.Some? && scale.value.JArr? {
      var x, y := ReadScale(scale.value.elems);
      options := options.(scaleX := x, scaleY := y);
    }
  }

  /**
   * An entry with none of the three fields, or a value that is not an
   * object at all, gets the default options.
   */
  lemma EntryWithoutFieldsIsDefault(value: Json)
    requires Get(value, "groups").None? && Get(value, "toggles").None? && Get(value, "scale").None?
    ensures EntryOptions(value) == DefaultOptions
  {
    assert ScaleOf([]) == (1.0, 1.0);
  }

  /** Fields of the wrong kind are ignored just as missing ones are. */
  lemma EntryFieldKinds(value: Json)
    ensures (match Get(value, "groups") case Some(JArr(_)) => false case _ => true) ==> EntryOptions(value).groups == {}
    ensures Get(value, "toggles").None? ==> EntryOptions(value).toggles == DefaultToggles
    ensures (match Get(value, "scale") case Some(JArr(_)) => false case _ => true) ==>
              EntryOptions(value).scaleX == 1.0 && EntryOptions(value).scaleY == 1.0
  {
    assert ScaleOf([]) == (1.0, 1.0);
  }
}

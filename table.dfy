/**
 * The table from object ID to ObjectOptions that the configuration fills:
 * which keys are admitted, and first-wins insertion in file order.
 */
module Table {
  import opened Wrappers
  import opened Json
  import opened CNumbers
  import opened Options

  type OptionsTable = map<int, ObjectOptions>

  /**
   * The key filter as the code has it: the zero test is made on strtol's
   * `long` result, and the key stored is that `long` converted to `int`.
   */
  function ObjectIdAsWritten(key: string, w: LongWidth): (r: Option<int>)
    ensures r.None? <==> StrToL(key, w) == 0
    ensures r.Some? ==> INT_MIN <= r.value <= INT_MAX && (StrToL(key, w) - r.value) % 0x1_0000_0000 == 0
  {
    var id := StrToL(key, w);
    if id == 0 then None else Some(ToInt32(id))
  }

  /** The key filter with the zero test made on the `int` that is stored. */
  function ObjectId(key: string, w: LongWidth): (r: Option<int>)
    ensures r.None? <==> StrToL(key, w) % 0x1_0000_0000 == 0
    ensures r.Some? ==> r.value != 0 && INT_MIN <= r.value <= INT_MAX && (StrToL(key, w) - r.value) % 0x1_0000_0000 == 0
  {
    var id := ToInt32(StrToL(key, w));
    if id == 0 then None else Some(id)
  }

  /** Where `long` is 64 bits, the key "4294967296" passes the zero test and is stored as 0. */
  lemma AsWrittenStoresKeyZero()
    ensures ObjectIdAsWritten("4294967296", Long64) == Some(0)
    ensures ObjectId("4294967296", Long64) == None
  {
    var key := "4294967296";
    TwoToTheThirtyTwo();
    NumeralRoundTrip("", "", 4294967296, "", Long64);
    assert "" + ("" + (key + "")) == key;
    assert ToInt32(4294967296) == 0;
  }

  /** The canonical numeral of 2^32. */
  lemma TwoToTheThirtyTwo()
    ensures Decimal(4294967296) == "4294967296"
  {
    assert Decimal(4) == "4";
    assert Decimal(42) == Decimal(4) + "2";
    assert Decimal(429) == Decimal(42) + "9";
    assert Decimal(4294) == Decimal(429) + "4";
    assert Decimal(42949) == Decimal(4294) + "9";
    assert Decimal(429496) == Decimal(42949) + "6";
    assert Decimal(4294967) == Decimal(429496) + "7";
    assert Decimal(42949672) == Decimal(4294967) + "2";
    assert Decimal(429496729) == Decimal(42949672) + "9";
    assert Decimal(4294967296) == Decimal(429496729) + "6";
  }

  /** The two filters agree whenever strtol's value fits in an `int`, which is always so for a 32-bit `long`. */
  lemma ObjectIdAgrees(key: string, w: LongWidth)
    requires w == Long32 || INT_MIN <= StrToL(key, w) <= INT_MAX
    ensures ObjectId(key, w) == ObjectIdAsWritten(key, w)
  {
  }

  /** One step of the loop: skip a filtered key, otherwise insert unless the ID is taken. */
  function InsertEntry(table: OptionsTable, member: (string, Json), w: LongWidth): (r: OptionsTable)
    ensures table.Keys <= r.Keys && |r| <= |table| + 1
    ensures 0 !in table ==> 0 !in r
  {
    match ObjectId(member.0, w)
    case None => table
    case Some(id) => if id in table then table else table[id := EntryOptions(member.1)]
  }

  /** One step of the loop as the code has it, with the key filter of ObjectIdAsWritten. */
  function InsertEntryAsWritten(table: OptionsTable, member: (string, Json), w: LongWidth): (r: OptionsTable)
    ensures table.Keys <= r.Keys && |r| <= |table| + 1
  {
    match ObjectIdAsWritten(member.0, w)
    case None => table
    case Some(id) => if id in table then table else table[id := EntryOptions(member.1)]
  }

  /** The table after inserting every member of a top-level object, in order. */
  function InsertAll(table: OptionsTable, members: seq<(string, Json)>, w: LongWidth): (r: OptionsTable)
    ensures table.Keys <= r.Keys && |r| <= |table| + |members|
  {
    if |members| == 0 then table
    else InsertEntry(InsertAll(table, members[..|members| - 1], w), members[|members| - 1], w)
  }

  /** The table an editor session builds from a top-level object. */
  function BuildTable(members: seq<(string, Json)>, w: LongWidth): (r: OptionsTable)
    ensures forall id :: id in r <==> Admits(members, w, id)
    ensures |r| <= |members|
  {
    forall id ensures id in InsertAll(map[], members, w) <==> Admits(members, w, id) {
      InsertAllKeys(map[], members, w, id);
    }
    InsertAll(map[], members, w)
  }

  lemma InsertEntryKeys(table: OptionsTable, member: (string, Json), w: LongWidth, id: int)
    ensures id in InsertEntry(table, member, w) <==> id in table || ObjectId(member.0, w) == Some(id)
  {
  }

  /** A step never replaces an entry that is already there. */
  lemma InsertEntryKeeps(table: OptionsTable, member: (string, Json), w: LongWidth, id: int)
    requires id in table
    ensures id in InsertEntry(table, member, w) && InsertEntry(table, member, w)[id] == table[id]
  {
  }

  /** A step whose key admits to a new ID inserts the member's options under it. */
  lemma InsertEntryNew(table: OptionsTable, member: (string, Json), w: LongWidth, id: int)
    requires ObjectId(member.0, w) == Some(id) && id !in table
    ensures InsertEntry(table, member, w) == table[id := EntryOptions(member.1)]
  {
  }

  /** Some member of `members` has a key that admits to `id`. */
  predicate Admits(members: seq<(string, Json)>, w: LongWidth, id: int) {
    exists i :: 0 <= i < |members| && ObjectId(members[i].0, w) == Some(id)
  }

  lemma AdmitsPrefix(members: seq<(string, Json)>, k: nat, w: LongWidth, id: int)
    requires k <= |members| && Admits(members[..k], w, id)
    ensures Admits(members, w, id)
  {
    var i :| 0 <= i < k && ObjectId(members[..k][i].0, w) == Some(id);
    assert members[..k][i] == members[i];
  }

  lemma AdmitsSnoc(members: seq<(string, Json)>, w: LongWidth, id: int)
    requires |members| > 0
    ensures Admits(members, w, id) <==>
            Admits(members[..|members| - 1], w, id) || ObjectId(members[|members| - 1].0, w) == Some(id)
  {
    var k := |members| - 1;
    if Admits(members, w, id) {
      var i :| 0 <= i < |members| && ObjectId(members[i].0, w) == Some(id);
      if i < k {
        assert members[..k][i] == members[i];
      }
    }
    if Admits(members[..k], w, id) {
      AdmitsPrefix(members, k, w, id);
    }
  }

  /** One more member on the end: InsertAll steps once more. */
  lemma InsertAllStep(table: OptionsTable, members: seq<(string, Json)>, i: nat, w: LongWidth)
    requires i < |members|
    ensures InsertAll(table, members[..i + 1], w) == InsertEntry(InsertAll(table, members[..i], w), members[i], w)
  {
    assert members[..i + 1][..i] == members[..i];
  }

  /** The keys of the result: the old keys and every admitted ID of the members. */
  lemma {:induction false} InsertAllKeys(table: OptionsTable, members: seq<(string, Json)>, w: LongWidth, id: int)
    ensures id in InsertAll(table, members, w) <==> id in table || Admits(members, w, id)
  {
    if |members| > 0 {
      var init := members[..|members| - 1];
      InsertAllKeys(table, init, w, id);
      InsertEntryKeys(InsertAll(table, init, w), members[|members| - 1], w, id);
      AdmitsSnoc(members, w, id);
    }
  }

  /** An entry that is already present is never replaced. */
  lemma {:induction false} InsertAllKeeps(table: OptionsTable, members: seq<(string, Json)>, w: LongWidth, id: int)
    requires id in table
    ensures id in InsertAll(table, members, w) && InsertAll(table, members, w)[id] == table[id]
  {
    if |members| > 0 {
      InsertAllKeeps(table, members[..|members| - 1], w, id);
      InsertEntryKeeps(InsertAll(table, members[..|members| - 1], w), members[|members| - 1], w, id);
    }
  }

  /**
   * First wins: a new ID gets the options of the first member whose key
   * admits to it, even when that member has no recognised fields.
   */
  lemma {:induction false} InsertAllFirstWins(table: OptionsTable, members: seq<(string, Json)>, w: LongWidth, i: nat)
    requires i < |members| && ObjectId(members[i].0, w).Some?
    requires ObjectId(members[i].0, w).value !in table
    requires forall j :: 0 <= j < i ==> ObjectId(members[j].0, w) != ObjectId(members[i].0, w)
    ensures var id := ObjectId(members[i].0, w).value;
            id in InsertAll(table, members, w) && InsertAll(table, members, w)[id] == EntryOptions(members[i].1)
  {
    var id := ObjectId(members[i].0, w).value;
    var k := |members| - 1;
    var init := members[..k];
    if i == k {
      InsertAllKeys(table, init, w, id);
      forall j | 0 <= j < k ensures ObjectId(init[j].0, w) != Some(id) {
        assert init[j] == members[j];
      }
      InsertEntryNew(InsertAll(table, init, w), members[k], w, id);
    } else {
      assert init[i] == members[i];
      forall j | 0 <= j < i ensures ObjectId(init[j].0, w) != ObjectId(init[i].0, w) {
        assert init[j] == members[j];
      }
      InsertAllFirstWins(table, init, w, i);
      InsertEntryKeeps(InsertAll(table, init, w), members[k], w, id);
    }
  }

  /** No member ever introduces the key 0, so a built table never has an entry 0. */
  lemma {:induction false} InsertAllNoZero(table: OptionsTable, members: seq<(string, Json)>, w: LongWidth)
    requires 0 !in table
    ensures 0 !in InsertAll(table, members, w)
  {
    if |members| > 0 {
      InsertAllNoZero(table, members[..|members| - 1], w);
    }
  }

  lemma BuildTableNoZero(members: seq<(string, Json)>, w: LongWidth)
    ensures 0 !in BuildTable(members, w)
  {
    InsertAllNoZero(map[], members, w);
  }

  /**
   * As written, a configuration whose only key is "4294967296" leaves an entry 0
   * in the table on a 64-bit-`long` platform; the corrected step skips that key.
   */
  lemma AsWrittenTableHoldsZero(v: Json)
    ensures InsertEntryAsWritten(map[], ("4294967296", v), Long64) == map[0 := EntryOptions(v)]
    ensures InsertEntry(map[], ("4294967296", v), Long64) == map[]
  {
    AsWrittenStoresKeyZero();
  }

  /** Keys that are not numerals are skipped: "abc", "0", "-0" and "" admit nothing. */
  lemma RejectedKeys(w: LongWidth)
    ensures ObjectId("abc", w) == None
    ensures ObjectId("", w) == None
    ensures ObjectId("0", w) == None
    ensures ObjectId("-0", w) == None
  {
    NoDigitsReadsZero("abc", w);
    NoDigitsReadsZero("", w);
    NumeralRoundTrip("", "", 0, "", w);
    assert "" + ("" + (Decimal(0) + "")) == "0";
    NumeralRoundTrip("", "-", 0, "", w);
    assert "" + ("-" + (Decimal(0) + "")) == "-0";
  }

  /**
   * White space, an optional sign, a numeral and a tail that does not start
   * with a digit admit the signed value of the numeral when it fits in an
   * `int` and is not zero; 0 and "-0" admit nothing.
   */
  lemma AdmittedNumeral(ws: string, sign: string, n: nat, rest: string, w: LongWidth)
    requires AllSpaces(ws)
    requires sign == "" || sign == "+" || sign == "-"
    requires rest == [] || !IsDigit(rest[0])
    requires n <= INT_MAX
    ensures ObjectId(ws + (sign + (Decimal(n) + rest)), w) ==
            if n == 0 then None else Some(if sign == "-" then -(n as int) else n)
  {
    NumeralRoundTrip(ws, sign, n, rest, w);
  }

  /** Trailing garbage after the digits is ignored: "12abc" admits 12. */
  lemma KeyWithTail(w: LongWidth)
    ensures ObjectId("12abc", w) == Some(12)
  {
    AdmittedNumeral("", "", 12, "abc", w);
    assert "" + ("" + (Decimal(12) + "abc")) == "12abc";
  }

  /** Leading white space is skipped: " 12" admits 12. */
  lemma KeyWithSpace(w: LongWidth)
    ensures ObjectId(" 12", w) == Some(12)
  {
    AdmittedNumeral(" ", "", 12, "", w);
    assert " " + ("" + (Decimal(12) + "")) == " 12";
  }

  /** Negative IDs are admitted: "-7" admits -7. */
  lemma NegativeKey(w: LongWidth)
    ensures ObjectId("-7", w) == Some(-7)
  {
    AdmittedNumeral("", "-", 7, "", w);
    assert "" + ("-" + (Decimal(7) + "")) == "-7";
  }

  /** Plain "12" admits 12. */
  lemma PlainKey(w: LongWidth)
    ensures ObjectId("12", w) == Some(12)
  {
    AdmittedNumeral("", "", 12, "", w);
    assert "" + ("" + (Decimal(12) + "")) == "12";
  }

  /** Leading zeros are read as decimal digits: "012" admits 12. */
  lemma KeyWithLeadingZero(w: LongWidth)
    ensures ObjectId("012", w) == Some(12)
  {
    var d := "012";
    assert AllDigits(d);
    assert DigitsValue(d) == 12;
    SignedDigits("", d, "", w);
    assert "" + (d + "") == d;
  }

  /** "12" and then "012" collide on 12; the earlier entry is kept. */
  lemma CollidingKeysKeepFirst(a: Json, b: Json, w: LongWidth)
    ensures BuildTable([("12", a), ("012", b)], w) == map[12 := EntryOptions(a)]
  {
    PlainKey(w);
    KeyWithLeadingZero(w);
    var ms := [("12", a), ("012", b)];
    var one := [("12", a)];
    assert ms[..1] == one && one[..0] == [];
    assert InsertAll(map[], one, w) == InsertEntry(InsertAll(map[], [], w), ("12", a), w);
    assert InsertAll(map[], one, w) == map[12 := EntryOptions(a)];
  }
}

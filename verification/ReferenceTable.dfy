/**
 The memoised reference-table decoder of `app/chatgpt_share/parser.py`, against the plain recursive reading
 it is meant to compute.
 */
module ReferenceTable {
  import opened Prelude
  import opened ChannelNames

  datatype Json =
    | Int(n: int)
    | Str(s: string)
    | Atom(text: string)
    | Arr(items: seq<Json>)
    | Obj(fields: seq<(string, Json)>)

  const NULL: Json := Atom("null")

  /** A decoded value; `Loop` is a dictionary or list still being filled, met again below itself. */
  datatype Tree = Raw(json: Json) | List(elements: seq<Tree>) | Dict(entries: map<string, Tree>) | Loop(index: nat)

  datatype Entry = Building | Built(tree: Tree)

  type Memo = map<nat, Entry>

  // ---------------------------------------------------------------- references

  /** An encoded key: an underscore and decimal digits. */
  predicate IsKeyRef(k: string) {
    |k| > 1 && k[0] == '_' && AllDigits(k[1..])
  }

  function Number(digits: string): nat
    requires AllDigits(digits)
  {
    if digits == "" then 0 else Number(digits[..|digits| - 1]) * 10 + (digits[|digits| - 1] as int - '0' as int)
  }

  function KeyIndex(k: string): nat
    requires IsKeyRef(k)
  {
    Number(k[1..])
  }

  /** A number for some entries of a table of `size` entries. */
  datatype Ranking = Ranking(size: nat, of: map<nat, nat>)

  predicate Covers(rank: Ranking, index: int) {
    0 <= index < rank.size ==> index in rank.of
  }

  predicate IndexBelow(index: int, rank: Ranking, bound: nat) {
    0 <= index < rank.size ==> index in rank.of && rank.of[index] < bound
  }

  predicate ValueBelow(v: Json, rank: Ranking, bound: nat) {
    v.Int? ==> IndexBelow(v.n, rank, bound)
  }

  predicate FieldBelow(f: (string, Json), rank: Ranking, bound: nat) {
    ValueBelow(f.1, rank, bound) && (IsKeyRef(f.0) ==> IndexBelow(KeyIndex(f.0), rank, bound))
  }

  predicate EntryBelow(e: Json, rank: Ranking, bound: nat) {
    && (e.Arr? ==> forall v | v in e.items :: ValueBelow(v, rank, bound))
    && (e.Obj? ==> forall f | f in e.fields :: FieldBelow(f, rank, bound))
  }

  /** References of ranked entries only lead to ranked entries of lower rank. */
  ghost predicate Ranked(table: seq<Json>, rank: Ranking) {
    rank.size == |table| && forall i | i in rank.of :: i < |table| && EntryBelow(table[i], rank, rank.of[i])
  }

  // ---------------------------------------------------------------- the plain reading

  type Repr = Tree -> string

  /** Python's `str` of a key. */
  function Show(repr: Repr, t: Tree): string {
    if t.Raw? && t.json.Str? then t.json.s else repr(t)
  }

  function RankOf(rank: Ranking, index: int): nat {
    if 0 <= index && index in rank.of then rank.of[index] else 0
  }

  function Width(table: seq<Json>, index: int): nat {
    if !(0 <= index < |table|) then 0
    else match table[index]
      case Arr(items) => |items| + 1
      case Obj(fields) => |fields| + 1
      case _ => 1
  }

  ghost function Plain(table: seq<Json>, repr: Repr, rank: Ranking, index: int): Tree
    requires Ranked(table, rank) && Covers(rank, index)
    decreases RankOf(rank, index), Width(table, index), 0
  {
    if !(0 <= index < |table|) then Raw(NULL)
    else match table[index]
      case Arr(items) =>
        assert EntryBelow(table[index], rank, rank.of[index]);
        List(PlainItems(table, repr, rank, items, rank.of[index]))
      case Obj(fields) =>
        assert EntryBelow(table[index], rank, rank.of[index]);
        Dict(PlainFields(table, repr, rank, fields, rank.of[index]))
      case e => Raw(e)
  }

  function IndexOf(v: Json): int {
    if v.Int? then v.n else -1
  }

  /** `resolve` without a memo. */
  ghost function PlainValue(table: seq<Json>, repr: Repr, rank: Ranking, v: Json): Tree
    requires Ranked(table, rank) && (v.Int? ==> Covers(rank, v.n))
    decreases RankOf(rank, IndexOf(v)), Width(table, IndexOf(v)), 1
  {
    if v.Int? then Plain(table, repr, rank, v.n) else Raw(v)
  }

  function KeyTarget(k: string): int {
    if IsKeyRef(k) then KeyIndex(k) else -1
  }

  ghost function PlainKey(table: seq<Json>, repr: Repr, rank: Ranking, k: string): string
    requires Ranked(table, rank) && (IsKeyRef(k) ==> Covers(rank, KeyIndex(k)))
    decreases RankOf(rank, KeyTarget(k)), Width(table, KeyTarget(k)), 1
  {
    if IsKeyRef(k) then Show(repr, Plain(table, repr, rank, KeyIndex(k))) else k
  }

  ghost function PlainItems(table: seq<Json>, repr: Repr, rank: Ranking, items: seq<Json>, bound: nat): seq<Tree>
    requires Ranked(table, rank) && forall v | v in items :: ValueBelow(v, rank, bound)
    decreases bound, |items|, 2
  {
    if items == [] then []
    else
      var v := items[|items| - 1];
      assert v in items && ValueBelow(v, rank, bound);
      PlainItems(table, repr, rank, items[..|items| - 1], bound) + [PlainValue(table, repr, rank, v)]
  }

  ghost function PlainFields(table: seq<Json>, repr: Repr, rank: Ranking, fields: seq<(string, Json)>, bound: nat): map<string, Tree>
    requires Ranked(table, rank) && forall f | f in fields :: FieldBelow(f, rank, bound)
    decreases bound, |fields|, 2
  {
    if fields == [] then map[]
    else
      var f := fields[|fields| - 1];
      assert f in fields && FieldBelow(f, rank, bound);
      PlainFields(table, repr, rank, fields[..|fields| - 1], bound)
        [PlainKey(table, repr, rank, f.0) := PlainValue(table, repr, rank, f.1)]
  }

  // ---------------------------------------------------------------- the memoised reading

  /** Finished entries hold the plain reading; unfinished ones rank at least `bound`. */
  ghost predicate Consistent(table: seq<Json>, repr: Repr, rank: Ranking, memo: Memo, bound: nat)
    requires Ranked(table, rank)
  {
    forall i | i in memo ::
      && i in rank.of
      && (memo[i].Built? ==> memo[i].tree == Plain(table, repr, rank, i))
      && (memo[i].Building? ==> rank.of[i] >= bound)
  }

  /** What was there stays, and what is new is finished. */
  predicate Keeps(before: Memo, after: Memo) {
    && (forall i | i in before :: i in after && after[i] == before[i])
    && (forall i | i in after && i !in before :: after[i].Built?)
  }

  function Unseen(table: seq<Json>, memo: Memo): set<nat> {
    set i | 0 <= i < |table| && i !in memo
  }

  class Decoder {
    const table: seq<Json>
    const repr: Repr
    var memo: Memo

    constructor (table: seq<Json>, repr: Repr)
      ensures this.table == table && this.repr == repr && memo == map[]
    {
      this.table, this.repr := table, repr;
      memo := map[];
    }

    /** `hydrate`: it terminates on every table because each call that goes deeper memoises one more index. */
    method Hydrate(index: int, ghost rank: Ranking, ghost bound: nat) returns (r: Tree)
      modifies this
      ensures Keeps(old(memo), memo)
      ensures Ranked(table, rank) && Consistent(table, repr, rank, old(memo), bound) && IndexBelow(index, rank, bound)
              ==> r == Plain(table, repr, rank, index) && Consistent(table, repr, rank, memo, bound)
      decreases Unseen(table, memo), 1
    {
      if index < 0 { return Raw(NULL); }
      if index >= |table| { return Raw(NULL); }
      if index in memo {
        return match memo[index] case Built(t) => t case Building => Loop(index);
      }
      match table[index] {
        case Obj(fields) =>
          var entries := HydrateFields(index, fields, rank);
          r := Dict(entries);
          Finished(old(memo), memo, index, r);
        case Arr(items) =>
          var elements := HydrateItems(index, items, rank);
          r := List(elements);
          Finished(old(memo), memo, index, r);
        case value =>
          r := Raw(value);
      }
      memo := memo[index := Built(r)];
    }

    /** `resolve`: integers are references, everything else is itself. */
    method Resolve(value: Json, ghost rank: Ranking, ghost bound: nat) returns (r: Tree)
      modifies this
      ensures Keeps(old(memo), memo)
      ensures Ranked(table, rank) && Consistent(table, repr, rank, old(memo), bound) && ValueBelow(value, rank, bound)
              ==> r == PlainValue(table, repr, rank, value) && Consistent(table, repr, rank, memo, bound)
      decreases Unseen(table, memo), 2
    {
      if value.Int? {
        r := Hydrate(value.n, rank, bound);
      } else {
        r := Raw(value);
      }
    }

    /** A key of the form `_123` names the entry that holds the key. */
    method ResolveKey(encoded: string, ghost rank: Ranking, ghost bound: nat) returns (key: string)
      modifies this
      ensures Keeps(old(memo), memo)
      ensures Ranked(table, rank) && Consistent(table, repr, rank, old(memo), bound)
              && (IsKeyRef(encoded) ==> IndexBelow(KeyIndex(encoded), rank, bound))
              ==> key == PlainKey(table, repr, rank, encoded) && Consistent(table, repr, rank, memo, bound)
      decreases Unseen(table, memo), 2
    {
      if IsKeyRef(encoded) {
        var named := Hydrate(KeyIndex(encoded), rank, bound);
        key := Show(repr, named);
      } else {
        key := encoded;
      }
    }

    /** Filling the list of one entry, which is memoised first. */
    method HydrateItems(index: nat, items: seq<Json>, ghost rank: Ranking) returns (elements: seq<Tree>)
      requires index < |table| && index !in memo && table[index] == Arr(items)
      modifies this
      ensures Keeps(old(memo)[index := Building], memo)
      ensures Ranked(table, rank) && index in rank.of && Consistent(table, repr, rank, old(memo)[index := Building], rank.of[index])
              ==> EntryBelow(table[index], rank, rank.of[index])
                  && elements == PlainItems(table, repr, rank, items, rank.of[index]) && Consistent(table, repr, rank, memo, rank.of[index])
      decreases Unseen(table, memo), 0
    {
      hide PlainValue, Consistent, Unseen;
      ghost var before := memo;
      memo := memo[index := Building];
      ghost var ok := Ranked(table, rank) && index in rank.of && Consistent(table, repr, rank, memo, rank.of[index]);
      ghost var bound := if ok then rank.of[index] else 0;
      elements := [];
      var i := 0;
      while i < |items|
        invariant 0 <= i <= |items| && Keeps(before[index := Building], memo)
        invariant ok ==> Ranked(table, rank) && EntryBelow(table[index], rank, bound)
        invariant ok ==> Consistent(table, repr, rank, memo, bound)
        invariant ok ==> elements == PlainItems(table, repr, rank, items[..i], bound)
      {
        Shrinks(table, before, memo, index);
        assert items[..i + 1][..i] == items[..i] && items[i] in items;
        ghost var here := memo;
        var element := Resolve(items[i], rank, bound);
        KeepsTransitive(before[index := Building], here, memo);
        elements := elements + [element];
        i := i + 1;
      }
      assert items[..|items|] == items;
    }

    /** Filling the dictionary of one entry; keys may be references too. */
    method HydrateFields(index: nat, fields: seq<(string, Json)>, ghost rank: Ranking) returns (entries: map<string, Tree>)
      requires index < |table| && index !in memo && table[index] == Obj(fields)
      modifies this
      ensures Keeps(old(memo)[index := Building], memo)
      ensures Ranked(table, rank) && index in rank.of && Consistent(table, repr, rank, old(memo)[index := Building], rank.of[index])
              ==> EntryBelow(table[index], rank, rank.of[index])
                  && entries == PlainFields(table, repr, rank, fields, rank.of[index]) && Consistent(table, repr, rank, memo, rank.of[index])
      decreases Unseen(table, memo), 0
    {
      hide PlainValue, PlainKey, Consistent, Unseen, ValueBelow;
      ghost var before := memo;
      memo := memo[index := Building];
      ghost var ok := Ranked(table, rank) && index in rank.of && Consistent(table, repr, rank, memo, rank.of[index]);
      ghost var bound := if ok then rank.of[index] else 0;
      entries := map[];
      var i := 0;
      while i < |fields|
        invariant 0 <= i <= |fields| && Keeps(before[index := Building], memo)
        invariant ok ==> Ranked(table, rank) && EntryBelow(table[index], rank, bound)
        invariant ok ==> Consistent(table, repr, rank, memo, bound)
        invariant ok ==> entries == PlainFields(table, repr, rank, fields[..i], bound)
      {
        assert fields[..i + 1][..i] == fields[..i] && fields[i] in fields;
        Shrinks(table, before, memo, index);
        ghost var here := memo;
        var key := ResolveKey(fields[i].0, rank, bound);
        KeepsTransitive(before[index := Building], here, memo);
        Shrinks(table, before, memo, index);
        here := memo;
        var value := Resolve(fields[i].1, rank, bound);
        KeepsTransitive(before[index := Building], here, memo);
        entries := entries[key := value];
        i := i + 1;
      }
      assert fields[..|fields|] == fields;
    }
  }

  lemma KeepsTransitive(a: Memo, b: Memo, c: Memo)
    requires Keeps(a, b) && Keeps(b, c)
    ensures Keeps(a, c)
  {
  }

  lemma Finished(before: Memo, memo: Memo, index: nat, r: Tree)
    requires index !in before && Keeps(before[index := Building], memo)
    ensures Keeps(before, memo[index := Built(r)])
  {
    var marked := before[index := Building];
    forall i | i in before ensures i in memo && memo[i] == before[i] {
      assert i in marked && marked[i] == before[i];
    }
  }

  lemma Shrinks(table: seq<Json>, before: Memo, memo: Memo, index: nat)
    requires index < |table| && index !in before && Keeps(before[index := Building], memo)
    ensures Unseen(table, memo) < Unseen(table, before)
  {
    assert index in before[index := Building];
    assert forall i | i in before :: before[index := Building][i] == before[i];
    assert index in Unseen(table, before) && index !in Unseen(table, memo);
  }

  /** The plain reading does not depend on the ranking. */
  lemma {:induction false} PlainAnyRank(table: seq<Json>, repr: Repr, rank: Ranking, other: Ranking, index: int)
    requires Ranked(table, rank) && Ranked(table, other) && Covers(rank, index) && Covers(other, index)
    ensures Plain(table, repr, rank, index) == Plain(table, repr, other, index)
    decreases RankOf(rank, index), Width(table, index)
  {
    if 0 <= index < |table| {
      assert EntryBelow(table[index], rank, rank.of[index]) && EntryBelow(table[index], other, other.of[index]);
      match table[index]
      case Arr(items) => ItemsAnyRank(table, repr, rank, other, items, rank.of[index], other.of[index]);
      case Obj(fields) => FieldsAnyRank(table, repr, rank, other, fields, rank.of[index], other.of[index]);
      case _ =>
    }
  }

  lemma {:induction false} ItemsAnyRank(table: seq<Json>, repr: Repr, rank: Ranking, other: Ranking, items: seq<Json>, b: nat, c: nat)
    requires Ranked(table, rank) && Ranked(table, other)
    requires forall v | v in items :: ValueBelow(v, rank, b) && ValueBelow(v, other, c)
    ensures PlainItems(table, repr, rank, items, b) == PlainItems(table, repr, other, items, c)
    decreases b, |items|
  {
    if items != [] {
      var v := items[|items| - 1];
      assert v in items;
      ItemsAnyRank(table, repr, rank, other, items[..|items| - 1], b, c);
      assert ValueBelow(v, rank, b) && ValueBelow(v, other, c);
      if v.Int? {
        PlainAnyRank(table, repr, rank, other, v.n);
      }
    }
  }

  lemma {:induction false} FieldsAnyRank(table: seq<Json>, repr: Repr, rank: Ranking, other: Ranking, fields: seq<(string, Json)>, b: nat, c: nat)
    requires Ranked(table, rank) && Ranked(table, other)
    requires forall f | f in fields :: FieldBelow(f, rank, b) && FieldBelow(f, other, c)
    ensures PlainFields(table, repr, rank, fields, b) == PlainFields(table, repr, other, fields, c)
    decreases b, |fields|
  {
    if fields != [] {
      var (k, v) := fields[|fields| - 1];
      assert FieldBelow(fields[|fields| - 1], rank, b);
      FieldsAnyRank(table, repr, rank, other, fields[..|fields| - 1], b, c);
      if IsKeyRef(k) {
        PlainAnyRank(table, repr, rank, other, KeyIndex(k));
      }
      if v.Int? {
        PlainAnyRank(table, repr, rank, other, v.n);
      }
    }
  }
}

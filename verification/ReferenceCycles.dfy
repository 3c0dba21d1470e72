/**
 When the reference table has a plain reading: the entries reachable from an index can be ranked exactly if no
 chain of references that starts there meets an entry twice.
 */
module ReferenceCycles {
  import opened ChannelNames
  import opened ReferenceTable

  /** The value or key field names entry `j`. */
  predicate Names(v: Json, j: nat) {
    v.Int? && v.n == j
  }

  predicate FieldNames(f: (string, Json), j: nat) {
    Names(f.1, j) || (IsKeyRef(f.0) && KeyIndex(f.0) == j)
  }

  /** Entry `i` of the table refers to entry `j`. */
  ghost predicate Refers(table: seq<Json>, i: nat, j: nat) {
    && i < |table| && j < |table|
    && match table[i]
       case Arr(items) => exists v | v in items :: Names(v, j)
       case Obj(fields) => exists f | f in fields :: FieldNames(f, j)
       case _ => false
  }

  ghost predicate Chain(table: seq<Json>, p: seq<nat>) {
    && (forall k | 0 <= k < |p| :: p[k] < |table|)
    && (forall k | 0 <= k < |p| - 1 :: Refers(table, p[k], p[k + 1]))
  }

  ghost predicate ChainFrom(table: seq<Json>, i: nat, p: seq<nat>) {
    p != [] && p[0] == i && Chain(table, p)
  }

  ghost predicate Distinct(p: seq<nat>) {
    forall a, b | 0 <= a < b < |p| :: p[a] != p[b]
  }

  /** No chain of references from entry `i` runs into itself. */
  ghost predicate Acyclic(table: seq<Json>, i: nat) {
    forall p | ChainFrom(table, i, p) :: Distinct(p)
  }

  ghost predicate Reaches(table: seq<Json>, i: nat, j: nat) {
    exists p :: ChainFrom(table, i, p) && p[|p| - 1] == j
  }

  // ---------------------------------------------------------------- ranked, so acyclic

  lemma RanksFall(table: seq<Json>, rank: Ranking, i: nat, j: nat)
    requires Ranked(table, rank) && i in rank.of && Refers(table, i, j)
    ensures j in rank.of && rank.of[j] < rank.of[i]
  {
    assert EntryBelow(table[i], rank, rank.of[i]);
    match table[i]
    case Arr(items) =>
      var v :| v in items && Names(v, j);
      assert ValueBelow(v, rank, rank.of[i]);
    case Obj(fields) =>
      var f :| f in fields && FieldNames(f, j);
      assert FieldBelow(f, rank, rank.of[i]);
  }

  lemma {:induction false} ChainFalls(table: seq<Json>, rank: Ranking, p: seq<nat>, a: nat, b: nat)
    requires Ranked(table, rank) && Chain(table, p) && p != [] && p[0] in rank.of && a <= b < |p|
    ensures p[a] in rank.of && p[b] in rank.of && (a < b ==> rank.of[p[b]] < rank.of[p[a]])
    decreases b
  {
    hide Ranked, Refers;
    if b > 0 {
      ChainFalls(table, rank, p, if a < b then a else b - 1, b - 1);
      assert Refers(table, p[b - 1], p[b - 1 + 1]);
      RanksFall(table, rank, p[b - 1], p[b]);
    }
  }

  // ---------------------------------------------------------------- acyclic, so ranked

  /** A chain of `n` references starts at `j`. */
  ghost predicate Deep(table: seq<Json>, j: nat, n: nat)
    decreases n
  {
    n == 0 || exists k: nat :: Refers(table, j, k) && Deep(table, k, n - 1)
  }

  lemma {:induction false} DeepChain(table: seq<Json>, j: nat, n: nat) returns (p: seq<nat>)
    requires j < |table| && Deep(table, j, n)
    ensures ChainFrom(table, j, p) && |p| == n + 1
    decreases n
  {
    hide Refers;
    if n == 0 {
      p := [j];
    } else {
      var k: nat :| Refers(table, j, k) && Deep(table, k, n - 1);
      assert k < |table| by { RefersInRange(table, j, k); }
      var q := DeepChain(table, k, n - 1);
      p := [j] + q;
      forall a | 0 <= a < |p| - 1 ensures Refers(table, p[a], p[a + 1]) {
        if a > 0 {
          assert Refers(table, q[a - 1], q[a - 1 + 1]);
        }
      }
    }
  }

  lemma RefersInRange(table: seq<Json>, i: nat, j: nat)
    requires Refers(table, i, j)
    ensures i < |table| && j < |table|
  {
  }

  lemma JoinChains(table: seq<Json>, i: nat, p: seq<nat>, q: seq<nat>)
    requires ChainFrom(table, i, p) && q != [] && ChainFrom(table, p[|p| - 1], q)
    ensures ChainFrom(table, i, p + q[1..]) && (p + q[1..])[|p + q[1..]| - 1] == q[|q| - 1]
  {
    hide Refers;
    var r := p + q[1..];
    forall k | 0 <= k < |r| - 1 ensures Refers(table, r[k], r[k + 1]) {
      if k < |p| - 1 {
        assert Refers(table, p[k], p[k + 1]);
      } else {
        assert Refers(table, q[k - |p| + 1], q[k - |p| + 1 + 1]);
      }
    }
  }

  lemma ReachesNext(table: seq<Json>, i: nat, j: nat, k: nat)
    requires Reaches(table, i, j) && Refers(table, j, k)
    ensures Reaches(table, i, k)
  {
    hide Refers;
    RefersInRange(table, j, k);
    var p :| ChainFrom(table, i, p) && p[|p| - 1] == j;
    assert ChainFrom(table, j, [j, k]);
    JoinChains(table, i, p, [j, k]);
  }

  lemma {:induction false} DistinctIsShort(p: seq<nat>, n: nat)
    requires Distinct(p) && forall x | x in p :: x < n
    ensures |p| <= n
    decreases n
  {
    if p != [] {
      assert p[0] in p;
      if n - 1 in p {
        var a :| 0 <= a < |p| && p[a] == n - 1;
        var q := p[..a] + p[a + 1..];
        forall x | x in q ensures x < n - 1 {
          var b :| 0 <= b < |q| && q[b] == x;
          var c := if b < a then b else b + 1;
          assert q[b] == p[c] && p[c] in p && p[c] != p[a];
        }
        DistinctIsShort(q, n - 1);
      } else {
        DistinctIsShort(p, n - 1);
      }
    }
  }

  /** On an acyclic part no chain is as long as the table. */
  lemma NoneAsDeep(table: seq<Json>, i: nat, j: nat)
    requires Acyclic(table, i) && Reaches(table, i, j) && j < |table|
    ensures !Deep(table, j, |table|)
  {
    hide Refers, Chain;
    if Deep(table, j, |table|) {
      var q := DeepChain(table, j, |table|);
      var p :| ChainFrom(table, i, p) && p[|p| - 1] == j;
      JoinChains(table, i, p, q);
      ChainInRange(table, i, p + q[1..]);
      DistinctIsShort(p + q[1..], |table|);
    }
  }

  lemma ChainInRange(table: seq<Json>, i: nat, p: seq<nat>)
    requires ChainFrom(table, i, p)
    ensures forall x | x in p :: x < |table|
  {
  }

  /** The length of the longest chain from `j`, up to `n`. */
  ghost function Depth(table: seq<Json>, j: nat, n: nat): (d: nat)
    ensures d <= n && Deep(table, j, d)
    ensures forall k: nat | d < k <= n :: !Deep(table, j, k)
  {
    if Deep(table, j, n) then n else Depth(table, j, n - 1)
  }

  ghost function DepthRanking(table: seq<Json>, i: nat): Ranking {
    Ranking(|table|, map j: nat | j < |table| && Reaches(table, i, j) :: Depth(table, j, |table|))
  }

  lemma DepthFalls(table: seq<Json>, i: nat, j: nat, k: nat)
    requires Acyclic(table, i) && j in DepthRanking(table, i).of && Refers(table, j, k)
    ensures k in DepthRanking(table, i).of && DepthRanking(table, i).of[k] < DepthRanking(table, i).of[j]
  {
    hide Refers, Acyclic, Reaches;
    RefersInRange(table, j, k);
    ReachesNext(table, i, j, k);
    NoneAsDeep(table, i, k);
    var d := Depth(table, k, |table|);
    assert Deep(table, j, d + 1);
  }

  lemma DepthRanks(table: seq<Json>, i: nat)
    requires Acyclic(table, i)
    ensures Ranked(table, DepthRanking(table, i))
  {
    hide DepthRanking, Acyclic;
    var rank := DepthRanking(table, i);
    RankingSize(table, i);
    forall j | j in rank.of ensures EntryBelow(table[j], rank, rank.of[j]) {
      match table[j]
      case Arr(items) =>
        forall v | v in items ensures ValueBelow(v, rank, rank.of[j]) {
          if v.Int? && 0 <= v.n < |table| {
            assert Names(v, v.n);
            assert Refers(table, j, v.n);
            DepthFalls(table, i, j, v.n);
          }
        }
      case Obj(fields) =>
        forall f | f in fields ensures FieldBelow(f, rank, rank.of[j]) {
          if f.1.Int? && 0 <= f.1.n < |table| {
            assert FieldNames(f, f.1.n);
            assert Refers(table, j, f.1.n);
            DepthFalls(table, i, j, f.1.n);
          }
          if IsKeyRef(f.0) && KeyIndex(f.0) < |table| {
            assert FieldNames(f, KeyIndex(f.0));
            assert Refers(table, j, KeyIndex(f.0));
            DepthFalls(table, i, j, KeyIndex(f.0));
          }
        }
      case _ =>
    }
  }

  lemma RankingSize(table: seq<Json>, i: nat)
    ensures DepthRanking(table, i).size == |table| && forall j | j in DepthRanking(table, i).of :: j < |table|
  {
  }

  /** What an entry refers to, directly or not, can be ranked exactly when no chain of references from it meets an entry twice. */
  lemma RankedExactlyWhenAcyclic(table: seq<Json>, i: nat)
    requires i < |table|
    ensures (exists rank :: Ranked(table, rank) && i in rank.of) <==> Acyclic(table, i)
  {
    hide Ranked, Refers, Chain;
    if rank :| Ranked(table, rank) && i in rank.of {
      forall p | ChainFrom(table, i, p) ensures Distinct(p) {
        forall a, b | 0 <= a < b < |p| ensures p[a] != p[b] {
          ChainFalls(table, rank, p, a, b);
        }
      }
    }
    if Acyclic(table, i) {
      DepthRanks(table, i);
      SelfReached(table, i);
    }
  }

  lemma SelfReached(table: seq<Json>, i: nat)
    requires i < |table|
    ensures i in DepthRanking(table, i).of
  {
    assert ChainFrom(table, i, [i]);
  }

  /** `_decode_reference_table`: the plain reading of the first entry, if no chain of references from it meets an entry twice. */
  method DecodeReferenceTable(raw: Json, repr: Repr) returns (r: Tree)
    ensures !raw.Arr? || raw.items == [] ==> r == Raw(raw)
    ensures raw.Arr? && raw.items != [] ==>
              forall rank | Ranked(raw.items, rank) && 0 in rank.of :: r == Plain(raw.items, repr, rank, 0)
    ensures raw.Arr? && raw.items != [] && Acyclic(raw.items, 0) ==>
              var rank := DepthRanking(raw.items, 0);
              Ranked(raw.items, rank) && 0 in rank.of && r == Plain(raw.items, repr, rank, 0)
  {
    hide Acyclic, DepthRanking;
    if !raw.Arr? || raw.items == [] { return Raw(raw); }
    var decoder := new Decoder(raw.items, repr);
    ghost var rank := Ranking(0, map[]);
    if exists other :: Ranked(raw.items, other) && 0 in other.of {
      rank :| Ranked(raw.items, rank) && 0 in rank.of;
    }
    r := decoder.Hydrate(0, rank, if 0 in rank.of then rank.of[0] + 1 else 0);
    forall other | Ranked(raw.items, other) && 0 in other.of ensures r == Plain(raw.items, repr, other, 0) {
      PlainAnyRank(raw.items, repr, rank, other, 0);
    }
    if Acyclic(raw.items, 0) {
      DepthRanks(raw.items, 0);
      SelfReached(raw.items, 0);
    }
  }

  // ---------------------------------------------------------------- the plain reading, entry by entry

  /** What an item of a list or a value of a dictionary stands for: the entry it names, or itself. */
  ghost predicate StandsFor(table: seq<Json>, repr: Repr, rank: Ranking, v: Json, t: Tree)
    requires Ranked(table, rank)
  {
    if v.Int? then Covers(rank, v.n) && t == Plain(table, repr, rank, v.n) else t == Raw(v)
  }

  /** A list entry reads as the list of what its items stand for, in their order. */
  lemma ListReading(table: seq<Json>, repr: Repr, rank: Ranking, i: nat)
    requires Ranked(table, rank) && i in rank.of && table[i].Arr?
    ensures var r := Plain(table, repr, rank, i);
            r.List? && |r.elements| == |table[i].items|
            && forall k | 0 <= k < |r.elements| :: StandsFor(table, repr, rank, table[i].items[k], r.elements[k])
  {
    assert EntryBelow(table[i], rank, rank.of[i]);
    ItemsReading(table, repr, rank, table[i].items, rank.of[i]);
  }

  lemma {:induction false} ItemsReading(table: seq<Json>, repr: Repr, rank: Ranking, items: seq<Json>, bound: nat)
    requires Ranked(table, rank) && forall v | v in items :: ValueBelow(v, rank, bound)
    ensures var r := PlainItems(table, repr, rank, items, bound);
            |r| == |items| && forall k | 0 <= k < |r| :: StandsFor(table, repr, rank, items[k], r[k])
    decreases |items|
  {
    if items != [] {
      var v := items[|items| - 1];
      assert v in items && ValueBelow(v, rank, bound);
      ItemsReading(table, repr, rank, items[..|items| - 1], bound);
    }
  }

  /** The key a field has after decoding. */
  ghost predicate KeyIs(table: seq<Json>, repr: Repr, rank: Ranking, encoded: string, key: string)
    requires Ranked(table, rank)
  {
    if IsKeyRef(encoded) then
      Covers(rank, KeyIndex(encoded))
      && var t := Plain(table, repr, rank, KeyIndex(encoded)); key == if t.Raw? && t.json.Str? then t.json.s else repr(t)
    else key == encoded
  }

  /** The dictionary of these keys and values; of equal keys the last one counts. */
  predicate Holds(r: map<string, Tree>, keys: seq<string>, values: seq<Tree>) {
    && |keys| == |values| && r.Keys == (set x | x in keys)
    && forall k | 0 <= k < |keys| && keys[k] !in keys[k + 1..] :: keys[k] in r && r[keys[k]] == values[k]
  }

  /** A dictionary entry reads as the dictionary of its decoded keys and what its values stand for. */
  lemma DictReading(table: seq<Json>, repr: Repr, rank: Ranking, i: nat) returns (keys: seq<string>, values: seq<Tree>)
    requires Ranked(table, rank) && i in rank.of && table[i].Obj?
    ensures var r := Plain(table, repr, rank, i); r.Dict? && Holds(r.entries, keys, values)
    ensures FieldsStandFor(table, repr, rank, table[i].fields, keys, values)
  {
    hide Holds;
    assert EntryBelow(table[i], rank, rank.of[i]);
    keys, values := FieldsReading(table, repr, rank, table[i].fields, rank.of[i]);
  }

  ghost predicate FieldsStandFor(table: seq<Json>, repr: Repr, rank: Ranking, fields: seq<(string, Json)>, keys: seq<string>, values: seq<Tree>)
    requires Ranked(table, rank)
  {
    && |keys| == |values| == |fields|
    && forall k | 0 <= k < |fields| ::
         KeyIs(table, repr, rank, fields[k].0, keys[k]) && StandsFor(table, repr, rank, fields[k].1, values[k])
  }

  lemma {:induction false} FieldsReading(table: seq<Json>, repr: Repr, rank: Ranking, fields: seq<(string, Json)>, bound: nat)
    returns (keys: seq<string>, values: seq<Tree>)
    requires Ranked(table, rank) && forall f | f in fields :: FieldBelow(f, rank, bound)
    ensures Holds(PlainFields(table, repr, rank, fields, bound), keys, values)
    ensures FieldsStandFor(table, repr, rank, fields, keys, values)
    decreases |fields|
  {
    hide Ranked, FieldBelow, Holds, KeyIs, StandsFor;
    if fields == [] {
      keys, values := [], [];
      NothingHeld();
    } else {
      var f := fields[|fields| - 1];
      assert f in fields && FieldBelow(f, rank, bound);
      FieldReading(table, repr, rank, f, bound);
      var front := fields[..|fields| - 1];
      keys, values := FieldsReading(table, repr, rank, front, bound);
      OneMoreHeld(PlainFields(table, repr, rank, front, bound), keys, values,
                  PlainKey(table, repr, rank, f.0), PlainValue(table, repr, rank, f.1));
      keys, values := keys + [PlainKey(table, repr, rank, f.0)], values + [PlainValue(table, repr, rank, f.1)];
    }
  }

  lemma NothingHeld()
    ensures Holds(map[], [], [])
  {
  }

  lemma OneMoreHeld(r: map<string, Tree>, keys: seq<string>, values: seq<Tree>, key: string, value: Tree)
    requires Holds(r, keys, values)
    ensures Holds(r[key := value], keys + [key], values + [value])
  {
    var more := keys + [key];
    forall k | 0 <= k < |more| && more[k] !in more[k + 1..]
      ensures more[k] in r[key := value] && r[key := value][more[k]] == (values + [value])[k]
    {
      if k < |keys| {
        assert more[k + 1..] == keys[k + 1..] + [key];
        assert more[k] == keys[k] && key in more[k + 1..];
      }
    }
  }

  lemma FieldReading(table: seq<Json>, repr: Repr, rank: Ranking, f: (string, Json), bound: nat)
    requires Ranked(table, rank) && FieldBelow(f, rank, bound)
    ensures (IsKeyRef(f.0) ==> Covers(rank, KeyIndex(f.0))) && (f.1.Int? ==> Covers(rank, f.1.n))
    ensures KeyIs(table, repr, rank, f.0, PlainKey(table, repr, rank, f.0))
    ensures StandsFor(table, repr, rank, f.1, PlainValue(table, repr, rank, f.1))
  {
  }

  /** Everything else: a scalar is itself, an index outside the table is null. */
  lemma ScalarReading(table: seq<Json>, repr: Repr, rank: Ranking, i: int)
    requires Ranked(table, rank) && Covers(rank, i)
    ensures !(0 <= i < |table|) ==> Plain(table, repr, rank, i) == Raw(Atom("null"))
    ensures 0 <= i < |table| && !table[i].Arr? && !table[i].Obj? ==> Plain(table, repr, rank, i) == Raw(table[i])
  {
  }

  /** An encoded key is an underscore before a decimal number, and names the entry of that number. */
  lemma {:induction false} KeyOfNumber(n: nat)
    ensures var k: string := "_" + Decimal(n); IsKeyRef(k) && KeyIndex(k) == n
  {
    var k: string := "_" + Decimal(n);
    assert k[0] == '_' && k[1..] == Decimal(n);
    NumberOfDecimal(n);
  }

  /** Nothing else names an entry: not a lone underscore, and nothing with another character behind it. */
  lemma KeyWhen(k: string)
    ensures IsKeyRef(k) <==> |k| >= 2 && k[0] == '_' && forall i | 1 <= i < |k| :: '0' <= k[i] <= '9'
  {
    if |k| >= 2 {
      assert forall i | 0 <= i < |k| - 1 :: k[1..][i] == k[i + 1];
      assert forall i | 1 <= i < |k| :: k[i] == k[1..][i - 1];
    }
  }

  lemma {:induction false} NumberOfDecimal(n: nat)
    ensures Number(Decimal(n)) == n
  {
    var d := "0123456789";
    assert d[0] == '0' && d[1] == '1' && d[2] == '2' && d[3] == '3' && d[4] == '4'
        && d[5] == '5' && d[6] == '6' && d[7] == '7' && d[8] == '8' && d[9] == '9';
    var s := Decimal(n);
    if n < 10 {
      assert s == [Digit(n)] && s[..|s| - 1] == "";
    } else {
      NumberOfDecimal(n / 10);
      assert s[..|s| - 1] == Decimal(n / 10) && s[|s| - 1] == Digit(n % 10);
    }
  }
}

/**
 * The text-to-index vectoriser of the newer package.
 *
 * An EmbeddingVectorizer owns a token table with default value 0 (the UNK id):
 * 'UNK' is 0 and '__PAD__' is 1 from the start, `fit` gives every token it has
 * not seen yet the next free id (2, 3, ...) in order of first occurrence, and
 * `transform` turns each string into a fixed-length list of ids, padding with
 * the id of '__PAD__'. Looking a token up during `transform` inserts it into
 * the table with value 0, as a Python defaultdict does.
 *
 * Tokenisation is foreign code; each vectoriser carries it as a function.
 */
module Transformations {
  import opened Wrappers

  // ---------------------------------------------------------------------------
  // Padding
  // ---------------------------------------------------------------------------

  /**
   * Truncate or right-pad `s` to exactly `length` elements. A Python string
   * argument is first split into its characters, which a Dafny string already
   * is.
   */
  function Pad<T>(s: seq<T>, length: nat, padChar: T): (r: seq<T>)
    ensures |r| == length
    ensures forall i :: 0 <= i < length ==> r[i] == if i < |s| then s[i] else padChar
    ensures |s| == length ==> r == s
  {
    if |s| == length then s
    else if |s| > length then s[..length]
    else s + seq(length - |s|, _ => padChar)
  }

  /** Padding to a length a second time changes nothing. */
  lemma PadIdempotent<T>(s: seq<T>, length: nat, padChar: T)
    ensures Pad(Pad(s, length, padChar), length, padChar) == Pad(s, length, padChar)
  {
  }

  /** A sequence already at the target length keeps only its first elements. */
  lemma PadKeepsPrefix<T>(s: seq<T>, length: nat, padChar: T)
    requires length <= |s|
    ensures Pad(s, length, padChar) == s[..length]
  {
  }

  // ---------------------------------------------------------------------------
  // The integer median that picks the sequence length
  // ---------------------------------------------------------------------------

  predicate SortedNats(s: seq<nat>) {
    forall i, j :: 0 <= i < j < |s| ==> s[i] <= s[j]
  }

  /** `s` with `x` placed before the first element not smaller than it. */
  function Insert(x: nat, s: seq<nat>): (r: seq<nat>)
    ensures |r| == |s| + 1
    ensures multiset(r) == multiset(s) + multiset{x}
  {
    if s == [] || x <= s[0] then [x] + s
    else
      assert s == [s[0]] + s[1..];
      [s[0]] + Insert(x, s[1..])
  }

  /** Prefixing a sorted list with a value not above its head keeps it sorted. */
  lemma ConsSorted(a: nat, r: seq<nat>)
    requires SortedNats(r)
    requires r != [] ==> a <= r[0]
    ensures SortedNats([a] + r)
  {
    var c := [a] + r;
    forall i, j | 0 <= i < j < |c| ensures c[i] <= c[j] {
      if i == 0 {
        assert c[j] == r[j - 1];
      } else {
        assert c[i] == r[i - 1] && c[j] == r[j - 1];
      }
    }
  }

  /** Inserting into a sorted list keeps it sorted, and the head becomes the smaller of `x` and the old head. */
  lemma {:induction false} InsertSorted(x: nat, s: seq<nat>)
    requires SortedNats(s)
    ensures SortedNats(Insert(x, s))
    ensures Insert(x, s)[0] == if s == [] || x <= s[0] then x else s[0]
  {
    if s == [] || x <= s[0] {
      ConsSorted(x, s);
    } else {
      var rest := Insert(x, s[1..]);
      assert SortedNats(s[1..]) by {
        forall i, j | 0 <= i < j < |s[1..]| ensures s[1..][i] <= s[1..][j] {
          assert s[1..][i] == s[i + 1] && s[1..][j] == s[j + 1];
        }
      }
      InsertSorted(x, s[1..]);
      assert s[1..] != [] ==> s[0] <= s[1..][0] by {
        if s[1..] != [] {
          assert s[1..][0] == s[1];
        }
      }
      ConsSorted(s[0], rest);
    }
  }

  /** The values of `s` in ascending order. */
  function Sort(s: seq<nat>): (r: seq<nat>)
    ensures |r| == |s|
    ensures multiset(r) == multiset(s)
    ensures SortedNats(r)
  {
    if s == [] then []
    else
      assert s == [s[0]] + s[1..];
      InsertSorted(s[0], Sort(s[1..]));
      Insert(s[0], Sort(s[1..]))
  }

  function CountAtMost(s: seq<nat>, m: int): nat {
    if s == [] then 0 else (if s[0] <= m then 1 else 0) + CountAtMost(s[1..], m)
  }

  function CountAtLeast(s: seq<nat>, m: int): nat {
    if s == [] then 0 else (if s[0] >= m then 1 else 0) + CountAtLeast(s[1..], m)
  }

  lemma {:induction false} CountInsert(x: nat, s: seq<nat>, m: int)
    requires SortedNats(s)
    ensures CountAtMost(Insert(x, s), m) == (if x <= m then 1 else 0) + CountAtMost(s, m)
    ensures CountAtLeast(Insert(x, s), m) == (if x >= m then 1 else 0) + CountAtLeast(s, m)
  {
    if s == [] || x <= s[0] {
      assert ([x] + s)[1..] == s;
    } else {
      CountInsert(x, s[1..], m);
      assert ([s[0]] + Insert(x, s[1..]))[1..] == Insert(x, s[1..]);
    }
  }

  /** Sorting does not change how many values lie on either side of a bound. */
  lemma {:induction false} CountSort(s: seq<nat>, m: int)
    ensures CountAtMost(Sort(s), m) == CountAtMost(s, m)
    ensures CountAtLeast(Sort(s), m) == CountAtLeast(s, m)
  {
    if s != [] {
      CountSort(s[1..], m);
      CountInsert(s[0], Sort(s[1..]), m);
    }
  }

  lemma {:induction false} CountAtMostPrefix(t: seq<nat>, m: int, k: nat)
    requires k <= |t|
    requires forall i :: 0 <= i < k ==> t[i] <= m
    ensures CountAtMost(t, m) >= k
  {
    if k > 0 {
      CountAtMostPrefix(t[1..], m, k - 1);
    }
  }

  lemma {:induction false} CountAtLeastSuffix(t: seq<nat>, m: int, k: nat)
    requires k <= |t|
    requires forall i :: k <= i < |t| ==> t[i] >= m
    ensures CountAtLeast(t, m) >= |t| - k
  {
    if t != [] {
      CountAtLeastSuffix(t[1..], m, if k > 0 then k - 1 else 0);
    }
  }

  /** The middle value (or floor of the two middle values) of a sorted sequence splits it in halves. */
  lemma SortedMiddleSplits(t: seq<nat>, r: nat)
    requires SortedNats(t) && |t| > 0
    requires r == if |t| % 2 == 1 then t[|t| / 2] else (t[|t| / 2 - 1] + t[|t| / 2]) / 2
    ensures 2 * CountAtMost(t, r) >= |t|
    ensures 2 * CountAtLeast(t, r) >= |t|
  {
    var h := |t| / 2;
    if |t| % 2 == 1 {
      CountAtMostPrefix(t, r, h + 1);
      CountAtLeastSuffix(t, r, h);
    } else {
      CountAtMostPrefix(t, r, h);
      CountAtLeastSuffix(t, r, h);
    }
  }

  /**
   * `int(numpy.median(lengths))`: the middle value for an odd count, the
   * floor of the mean of the two middle values for an even count. At least
   * half of the values are at most the result and at least half at least it.
   */
  function Median(lengths: seq<nat>): (r: nat)
    requires |lengths| > 0
    ensures 2 * CountAtMost(lengths, r) >= |lengths|
    ensures 2 * CountAtLeast(lengths, r) >= |lengths|
  {
    var t := Sort(lengths);
    var n := |t|;
    var r: nat := if n % 2 == 1 then t[n / 2] else (t[n / 2 - 1] + t[n / 2]) / 2;
    CountSort(lengths, r);
    SortedMiddleSplits(t, r);
    r
  }

  /** The median of equal lengths is that length. */
  lemma MedianOfEqualLengths(lengths: seq<nat>, k: nat)
    requires |lengths| > 0
    requires forall i :: 0 <= i < |lengths| ==> lengths[i] == k
    ensures Median(lengths) == k
  {
    var t := Sort(lengths);
    assert forall i :: 0 <= i < |t| ==> t[i] == k by {
      forall i | 0 <= i < |t| ensures t[i] == k {
        assert t[i] in multiset(lengths);
      }
    }
  }

  /** The number of tokens in each row. */
  function TokenCounts(tokenLists: seq<seq<string>>): (r: seq<nat>)
    ensures |r| == |tokenLists|
    ensures forall i :: 0 <= i < |r| ==> r[i] == |tokenLists[i]|
  {
    seq(|tokenLists|, i requires 0 <= i < |tokenLists| => |tokenLists[i]|)
  }

  /**
   * `generate_embedding_sequence_length`: the integer median of the token
   * counts; numpy's median of no rows is NaN, which `int` rejects.
   */
  function GenerateEmbeddingSequenceLength(tokenLists: seq<seq<string>>): (r: Result<nat>)
    ensures r.Err? <==> tokenLists == []
    ensures r.Err? ==> r.error == ValueError
    ensures r.Ok? ==> 2 * CountAtMost(TokenCounts(tokenLists), r.value) >= |tokenLists|
    ensures r.Ok? ==> 2 * CountAtLeast(TokenCounts(tokenLists), r.value) >= |tokenLists|
  {
    if tokenLists == [] then Err(ValueError) else Ok(Median(TokenCounts(tokenLists)))
  }

  // ---------------------------------------------------------------------------
  // The token table, as values
  // ---------------------------------------------------------------------------

  const UnkId := 0
  const PadId := 1
  const FirstFreeId := 2

  /** A defaultdict(int) lookup, without its side effect. */
  function Lookup(table: map<string, int>, token: string): int {
    if token in table then table[token] else UnkId
  }

  /**
   * The table invariant. `issued` lists the tokens that received the ids 2,
   * 3, ... in that order: ids at or above 2 are dense and belong to exactly
   * one token, 'UNK' is 0, '__PAD__' is the only token with id 1, and every
   * id is below the next free one.
   */
  ghost predicate ValidTable(table: map<string, int>, nextId: int, issued: seq<string>) {
    && "UNK" in table && table["UNK"] == UnkId
    && "__PAD__" in table && table["__PAD__"] == PadId
    && nextId == |issued| + FirstFreeId
    && (forall i :: 0 <= i < |issued| ==> issued[i] in table && table[issued[i]] == i + FirstFreeId)
    && (forall t :: t in table ==> 0 <= table[t] < nextId)
    && (forall t :: t in table && table[t] >= FirstFreeId ==> issued[table[t] - FirstFreeId] == t)
    && (forall t :: t in table && table[t] == PadId ==> t == "__PAD__")
  }

  /** Ids handed out by `fit` are pairwise distinct, at least 2, and below the next free id. */
  lemma AssignedIdsDistinct(table: map<string, int>, nextId: int, issued: seq<string>, t: string, u: string)
    requires ValidTable(table, nextId, issued)
    requires t in table && u in table && t != u && table[t] >= FirstFreeId
    ensures table[u] != table[t]
    ensures FirstFreeId <= table[t] < nextId
  {
  }

  /** The tokens not in `known`, in order of first occurrence. */
  function NewTokens(known: set<string>, tokens: seq<string>): (r: seq<string>)
    ensures forall t :: t in r ==> t in tokens && t !in known
    ensures forall t :: t in tokens ==> t in known || t in r
    ensures forall i, j :: 0 <= i < j < |r| ==> r[i] != r[j]
  {
    if tokens == [] then []
    else
      var prefix := tokens[..|tokens| - 1];
      var last := tokens[|tokens| - 1];
      assert tokens == prefix + [last];
      NewTokens(known, prefix) + (if last in known || last in prefix then [] else [last])
  }

  /** The position of the first occurrence of `t` in `tokens`. */
  function FirstIndex(tokens: seq<string>, t: string): (k: nat)
    requires t in tokens
    ensures k < |tokens| && tokens[k] == t && t !in tokens[..k]
    ensures forall p :: 0 <= p < k ==> tokens[p] != t
  {
    if tokens[0] == t then 0
    else
      var k := FirstIndex(tokens[1..], t);
      assert tokens[..k + 1] == [tokens[0]] + tokens[1..][..k];
      1 + k
  }

  /** A first occurrence is the position where `t` occurs and has not occurred before. */
  lemma FirstIndexUnique(tokens: seq<string>, t: string, k: nat)
    requires k < |tokens| && tokens[k] == t && t !in tokens[..k]
    ensures FirstIndex(tokens, t) == k
  {
    assert forall p :: 0 <= p < k ==> tokens[..k][p] == tokens[p];
  }

  /** Dropping the last token does not move the first occurrence of a token the rest holds. */
  lemma FirstIndexInFront(tokens: seq<string>, x: string)
    requires |tokens| > 0 && x in tokens[..|tokens| - 1]
    ensures FirstIndex(tokens, x) == FirstIndex(tokens[..|tokens| - 1], x) < |tokens| - 1
  {
    var front := tokens[..|tokens| - 1];
    var k := FirstIndex(front, x);
    assert tokens[..k] == front[..k];
    FirstIndexUnique(tokens, x, k);
  }

  /**
   * The new tokens are listed in order of their first occurrence in
   * `tokens`, so `fit` issues ids in that order.
   */
  lemma {:induction false} NewTokensOrder(known: set<string>, tokens: seq<string>)
    ensures forall i, j :: 0 <= i < j < |NewTokens(known, tokens)| ==>
      FirstIndex(tokens, NewTokens(known, tokens)[i]) < FirstIndex(tokens, NewTokens(known, tokens)[j])
  {
    if tokens != [] {
      var prefix := tokens[..|tokens| - 1];
      var last := tokens[|tokens| - 1];
      var r0 := NewTokens(known, prefix);
      var r := NewTokens(known, tokens);
      NewTokensOrder(known, prefix);
      assert r == r0 + (if last in known || last in prefix then [] else [last]);
      forall i, j | 0 <= i < j < |r| ensures FirstIndex(tokens, r[i]) < FirstIndex(tokens, r[j]) {
        assert r[i] == r0[i] && r0[i] in r0;
        FirstIndexInFront(tokens, r[i]);
        if j < |r0| {
          assert r[j] == r0[j] && r0[j] in r0;
          FirstIndexInFront(tokens, r[j]);
          assert FirstIndex(prefix, r0[i]) < FirstIndex(prefix, r0[j]);
        } else {
          assert r[j] == last && last !in prefix;
          FirstIndexUnique(tokens, last, |tokens| - 1);
          assert FirstIndex(tokens, r[j]) == |tokens| - 1;
        }
      }
    }
  }

  /**
   * The table and next free id after `fit` has walked over `tokens`: a token
   * not yet in the table gets the next free id, which then advances.
   */
  function AssignIds(table: map<string, int>, nextId: int, tokens: seq<string>): (r: (map<string, int>, int))
  {
    if tokens == [] then (table, nextId)
    else AssignStep(AssignIds(table, nextId, tokens[..|tokens| - 1]), tokens[|tokens| - 1])
  }

  /** One token of `fit`: an unseen token gets the next free id, which then advances. */
  function AssignStep(state: (map<string, int>, int), token: string): (map<string, int>, int) {
    if token in state.0 then state else (state.0[token := state.1], state.1 + 1)
  }

  /**
   * What `fit` does to the table: existing entries keep their ids, every new
   * token gets the next free id in order of first occurrence, and the next
   * free id advances by the number of new tokens.
   */
  lemma {:induction false} AssignIdsSpec(table: map<string, int>, nextId: int, tokens: seq<string>)
    ensures AssignIds(table, nextId, tokens).1 == nextId + |NewTokens(table.Keys, tokens)|
    ensures forall x :: x in AssignIds(table, nextId, tokens).0 <==> x in table || x in tokens
    ensures forall x :: x in table ==> AssignIds(table, nextId, tokens).0[x] == table[x]
    ensures forall i :: 0 <= i < |NewTokens(table.Keys, tokens)| ==>
      AssignIds(table, nextId, tokens).0[NewTokens(table.Keys, tokens)[i]] == nextId + i
  {
    if tokens != [] {
      var prefix := tokens[..|tokens| - 1];
      var last := tokens[|tokens| - 1];
      assert tokens == prefix + [last];
      AssignIdsSpec(table, nextId, prefix);
      var s0 := AssignIds(table, nextId, prefix);
      var n0 := NewTokens(table.Keys, prefix);
      assert AssignIds(table, nextId, tokens) == AssignStep(s0, last);
      if last in s0.0 {
        assert last in table || last in prefix;
        assert NewTokens(table.Keys, tokens) == n0;
      } else {
        assert NewTokens(table.Keys, tokens) == n0 + [last];
        assert forall i :: 0 <= i < |n0| ==> n0[i] != last;
      }
    }
  }

  /** Of two tokens `fit` adds, the one that occurs first gets the smaller id. */
  lemma AssignIdsFollowFirstOccurrence(table: map<string, int>, nextId: int, tokens: seq<string>, x: string, y: string)
    requires x in tokens && y in tokens && x !in table && y !in table
    requires FirstIndex(tokens, x) < FirstIndex(tokens, y)
    ensures var t := AssignIds(table, nextId, tokens).0;
      x in t && y in t && t[x] < t[y]
  {
    var r := NewTokens(table.Keys, tokens);
    AssignIdsSpec(table, nextId, tokens);
    NewTokensOrder(table.Keys, tokens);
    var i :| 0 <= i < |r| && r[i] == x;
    var j :| 0 <= j < |r| && r[j] == y;
    assert !(j < i || j == i);
  }

  /** The table after `fit` holds a token exactly when it held it before or `fit` saw it. */
  lemma AssignIdsKeys(table: map<string, int>, nextId: int, tokens: seq<string>, x: string)
    ensures x in AssignIds(table, nextId, tokens).0 <==> x in table || x in tokens
  {
    AssignIdsSpec(table, nextId, tokens);
  }

  /** One more token in `fit`: it gets the next free id exactly when the table does not hold it yet. */
  lemma AssignIdsSnoc(table: map<string, int>, nextId: int, tokens: seq<string>, x: string)
    ensures AssignIds(table, nextId, tokens + [x]) == AssignStep(AssignIds(table, nextId, tokens), x)
  {
    var extended := tokens + [x];
    assert extended[..|extended| - 1] == tokens;
  }

  /** `fit` advances the next free id by the number of new tokens. */
  lemma AssignIdsNext(table: map<string, int>, nextId: int, tokens: seq<string>)
    ensures AssignIds(table, nextId, tokens).1 == nextId + |NewTokens(table.Keys, tokens)|
  {
    AssignIdsSpec(table, nextId, tokens);
  }

  /** `fit` keeps the id of a token the table already held. */
  lemma AssignIdsKeepsOld(table: map<string, int>, nextId: int, tokens: seq<string>, x: string)
    requires x in table
    ensures x in AssignIds(table, nextId, tokens).0 && AssignIds(table, nextId, tokens).0[x] == table[x]
  {
    AssignIdsSpec(table, nextId, tokens);
  }

  /** A token `fit` added to the table is one of the new tokens, and its id is the next free id plus its position. */
  lemma AddedTokenPosition(table: map<string, int>, nextId: int, tokens: seq<string>, x: string) returns (i: nat)
    requires x in AssignIds(table, nextId, tokens).0 && x !in table
    ensures i < |NewTokens(table.Keys, tokens)| && NewTokens(table.Keys, tokens)[i] == x
    ensures AssignIds(table, nextId, tokens).0[x] == nextId + i
  {
    AssignIdsSpec(table, nextId, tokens);
    var added := NewTokens(table.Keys, tokens);
    assert x in tokens;
    i :| 0 <= i < |added| && added[i] == x;
  }

  /** After `fit`, the issued tokens, old and new, hold their ids 2, 3, ... in order. */
  lemma AssignIdsIssued(table: map<string, int>, nextId: int, issued: seq<string>, tokens: seq<string>)
    requires ValidTable(table, nextId, issued)
    ensures var t := AssignIds(table, nextId, tokens).0;
      var all := issued + NewTokens(table.Keys, tokens);
      forall i :: 0 <= i < |all| ==> all[i] in t && t[all[i]] == i + FirstFreeId
  {
    AssignIdsSpec(table, nextId, tokens);
    var t := AssignIds(table, nextId, tokens).0;
    var added := NewTokens(table.Keys, tokens);
    var all := issued + added;
    forall i | 0 <= i < |all|
      ensures all[i] in t && t[all[i]] == i + FirstFreeId
    {
      if i >= |issued| {
        assert all[i] == added[i - |issued|];
        assert added[i - |issued|] in tokens;
      } else {
        assert all[i] == issued[i];
      }
    }
  }

  /** After `fit`, the id of one token is below 2 plus the number of issued tokens, and from 2 up it names that token. */
  lemma AssignIdsInverseAt(table: map<string, int>, nextId: int, issued: seq<string>, tokens: seq<string>, x: string)
    requires ValidTable(table, nextId, issued)
    requires x in AssignIds(table, nextId, tokens).0
    ensures var t := AssignIds(table, nextId, tokens).0;
      var all := issued + NewTokens(table.Keys, tokens);
      && 0 <= t[x] < FirstFreeId + |all|
      && (t[x] >= FirstFreeId ==> all[t[x] - FirstFreeId] == x)
      && (t[x] == PadId ==> x == "__PAD__")
  {
    var t := AssignIds(table, nextId, tokens).0;
    var all := issued + NewTokens(table.Keys, tokens);
    AssignIdsNext(table, nextId, tokens);
    if x in table {
      AssignIdsKeepsOld(table, nextId, tokens, x);
      if table[x] >= FirstFreeId {
        assert all[table[x] - FirstFreeId] == issued[table[x] - FirstFreeId];
      }
    } else {
      var i := AddedTokenPosition(table, nextId, tokens, x);
      assert all[|issued| + i] == x;
    }
  }

  /** After `fit`, every id is below 2 plus the number of issued tokens, and each id from 2 up names its issued token. */
  lemma AssignIdsInverse(table: map<string, int>, nextId: int, issued: seq<string>, tokens: seq<string>)
    requires ValidTable(table, nextId, issued)
    ensures var t := AssignIds(table, nextId, tokens).0;
      var all := issued + NewTokens(table.Keys, tokens);
      forall x :: x in t ==> && 0 <= t[x] < FirstFreeId + |all|
                             && (t[x] >= FirstFreeId ==> all[t[x] - FirstFreeId] == x)
                             && (t[x] == PadId ==> x == "__PAD__")
  {
    forall x | x in AssignIds(table, nextId, tokens).0 {
      AssignIdsInverseAt(table, nextId, issued, tokens, x);
    }
  }

  /** `fit` keeps the table invariant. */
  lemma AssignIdsValid(table: map<string, int>, nextId: int, issued: seq<string>, tokens: seq<string>)
    requires ValidTable(table, nextId, issued)
    ensures ValidTable(AssignIds(table, nextId, tokens).0, AssignIds(table, nextId, tokens).1,
                       issued + NewTokens(table.Keys, tokens))
  {
    AssignIdsIssued(table, nextId, issued, tokens);
    AssignIdsInverse(table, nextId, issued, tokens);
    AssignIdsSpec(table, nextId, tokens);
  }

  /** The table after looking up `tokens` in a defaultdict: missing ones are inserted with 0. */
  function WithDefaults(table: map<string, int>, tokens: seq<string>): map<string, int> {
    map x | x in table.Keys + (set t | t in tokens) :: Lookup(table, x)
  }

  /** Looking tokens up adds exactly those tokens as keys and changes the value of no lookup. */
  lemma WithDefaultsSpec(table: map<string, int>, tokens: seq<string>)
    ensures WithDefaults(table, tokens).Keys == table.Keys + (set t | t in tokens)
    ensures forall x :: Lookup(WithDefaults(table, tokens), x) == Lookup(table, x)
  {
  }

  /** Looking up one more token inserts it with 0 when it is missing and changes nothing otherwise. */
  lemma WithDefaultsSnoc(table: map<string, int>, tokens: seq<string>, x: string)
    ensures var d := WithDefaults(table, tokens);
      WithDefaults(table, tokens + [x]) == if x in d then d else d[x := UnkId]
  {
    var d := WithDefaults(table, tokens);
    WithDefaultsSpec(table, tokens);
    WithDefaultsSpec(table, tokens + [x]);
    assert (set t | t in tokens + [x]) == (set t | t in tokens) + {x};
    if x !in d {
      assert Lookup(table, x) == UnkId;
    }
  }

  /** Inserting defaults keeps the table invariant. */
  lemma WithDefaultsValid(table: map<string, int>, nextId: int, issued: seq<string>, tokens: seq<string>)
    requires ValidTable(table, nextId, issued)
    ensures ValidTable(WithDefaults(table, tokens), nextId, issued)
  {
    var r := WithDefaults(table, tokens);
    WithDefaultsSpec(table, tokens);
    forall x | x in r
      ensures r[x] == Lookup(table, x)
    {
      assert Lookup(r, x) == Lookup(table, x);
    }
  }

  /**
   * A token that was looked up before a later `fit` is in the table already,
   * so that `fit` never gives it a fresh id: it keeps the id it had, 0 when it
   * was unknown.
   */
  lemma LookedUpTokensGetNoFreshId(table: map<string, int>, nextId: int, looked: seq<string>, fitted: seq<string>, x: string)
    requires x in looked
    ensures var (t, _) := AssignIds(WithDefaults(table, looked), nextId, fitted);
      x in t && t[x] == Lookup(table, x)
  {
    var d := WithDefaults(table, looked);
    WithDefaultsSpec(table, looked);
    AssignIdsSpec(d, nextId, fitted);
    assert x in d;
    assert Lookup(d, x) == Lookup(table, x);
  }

  /**
   * The ids `process_string` produces for `tokens`: one per token, unknown
   * ones 0, then truncated or padded with `padId` to the sequence length.
   * With no sequence length Python 2 compares `len(ids) > None` as true and
   * slices with `[:None]`, which keeps every id.
   */
  function Encode(table: map<string, int>, tokens: seq<string>, length: Option<nat>, padId: int): (r: seq<int>)
    ensures length.None? ==> |r| == |tokens|
    ensures length.Some? ==> |r| == length.value
    ensures forall i :: 0 <= i < |r| ==> r[i] == if i < |tokens| then Lookup(table, tokens[i]) else padId
  {
    var ids := seq(|tokens|, i requires 0 <= i < |tokens| => Lookup(table, tokens[i]));
    match length
    case None => ids
    case Some(n) => Pad(ids, n, padId)
  }

  /** Ids looked up one per token encode the tokens once padded to the sequence length. */
  lemma EncodeFromIds(table: map<string, int>, tokens: seq<string>, ids: seq<int>, length: Option<nat>, padId: int)
    requires |ids| == |tokens|
    requires forall j :: 0 <= j < |ids| ==> ids[j] == Lookup(table, tokens[j])
    ensures length.None? ==> Encode(table, tokens, length, padId) == ids
    ensures length.Some? ==> Encode(table, tokens, length, padId) == Pad(ids, length.value, padId)
  {
  }

  /** The ids of every row, each encoded as `process_string` does. */
  function EncodeRows(table: map<string, int>, lists: seq<seq<string>>, length: Option<nat>): (r: seq<seq<int>>)
    ensures |r| == |lists|
    ensures forall i :: 0 <= i < |lists| ==> r[i] == Encode(table, lists[i], length, PadId)
  {
    if lists == [] then []
    else EncodeRows(table, lists[..|lists| - 1], length) + [Encode(table, lists[|lists| - 1], length, PadId)]
  }

  /** The concatenation of all token lists. */
  function Concat(lists: seq<seq<string>>): seq<string> {
    if lists == [] then [] else Concat(lists[..|lists| - 1]) + lists[|lists| - 1]
  }

  // ---------------------------------------------------------------------------
  // The vectoriser object
  // ---------------------------------------------------------------------------

  class EmbeddingVectorizer {
    /** The foreign tokenizer (`simple_preprocess`). */
    const tokenize: string -> seq<string>
    var embeddingSequenceLength: Option<nat>
    var tokenIndexLookup: map<string, int>
    var nextTokenIndex: int
    /** The tokens that received ids 2, 3, ..., in that order. */
    ghost var issued: seq<string>

    ghost predicate Valid()
      reads this
    {
      ValidTable(tokenIndexLookup, nextTokenIndex, issued)
    }

    /** The token list of each row. */
    function TokenLists(rows: seq<string>): (r: seq<seq<string>>)
      ensures |r| == |rows|
      ensures forall i :: 0 <= i < |rows| ==> r[i] == tokenize(rows[i])
    {
      seq(|rows|, i requires 0 <= i < |rows| => tokenize(rows[i]))
    }

    constructor (tokenize: string -> seq<string>, embeddingSequenceLength: Option<nat>)
      ensures Valid()
      ensures this.tokenize == tokenize
      ensures this.embeddingSequenceLength == embeddingSequenceLength
      ensures tokenIndexLookup == map["UNK" := UnkId, "__PAD__" := PadId]
      ensures nextTokenIndex == FirstFreeId && issued == []
    {
      this.tokenize := tokenize;
      this.embeddingSequenceLength := embeddingSequenceLength;
      tokenIndexLookup := map["UNK" := UnkId, "__PAD__" := PadId];
      nextTokenIndex := FirstFreeId;
      issued := [];
    }

    /**
     * `fit`: picks the sequence length when none is set (a ValueError when
     * there are no rows to take the median of), then gives every unseen token
     * the next free id in order of first occurrence.
     */
    method Fit(rows: seq<string>) returns (r: Result<()>)
      requires Valid()
      modifies this
      ensures Valid()
      ensures old(embeddingSequenceLength).None? && rows == [] ==>
        r == Err(ValueError) && unchanged(this)
      ensures !(old(embeddingSequenceLength).None? && rows == []) ==>
        && r == Ok(())
        && embeddingSequenceLength == (if old(embeddingSequenceLength).Some? then old(embeddingSequenceLength)
                                       else Some(Median(TokenCounts(TokenLists(rows)))))
        && (tokenIndexLookup, nextTokenIndex) == AssignIds(old(tokenIndexLookup), old(nextTokenIndex), Concat(TokenLists(rows)))
        && issued == old(issued) + NewTokens(old(tokenIndexLookup).Keys, Concat(TokenLists(rows)))
    {
      var lists := TokenLists(rows);
      if embeddingSequenceLength.None? {
        var length := GenerateEmbeddingSequenceLength(lists);
        if length.Err? {
          return Err(length.error);
        }
        embeddingSequenceLength := Some(length.value);
      }
      var tokens := Concat(lists);
      AddTokens(tokens);
      r := Ok(());
    }

    /** The loop of `fit` that gives every unseen token the next free id. */
    method AddTokens(tokens: seq<string>)
      requires Valid()
      modifies this`tokenIndexLookup, this`nextTokenIndex, this`issued
      ensures Valid()
      ensures (tokenIndexLookup, nextTokenIndex) == AssignIds(old(tokenIndexLookup), old(nextTokenIndex), tokens)
      ensures issued == old(issued) + NewTokens(old(tokenIndexLookup).Keys, tokens)
    {
      ghost var table0, next0 := tokenIndexLookup, nextTokenIndex;
      var i := 0;
      while i < |tokens|
        invariant 0 <= i <= |tokens|
        invariant tokenIndexLookup == AssignIds(table0, next0, tokens[..i]).0
        invariant nextTokenIndex == AssignIds(table0, next0, tokens[..i]).1
        modifies this`tokenIndexLookup, this`nextTokenIndex
      {
        var token := tokens[i];
        assert tokens[..i + 1] == tokens[..i] + [token];
        AssignIdsSnoc(table0, next0, tokens[..i], token);
        if token !in tokenIndexLookup {
          tokenIndexLookup := tokenIndexLookup[token := nextTokenIndex];
          nextTokenIndex := nextTokenIndex + 1;
        }
        i := i + 1;
      }
      assert tokens[..i] == tokens;
      AssignIdsValid(table0, next0, issued, tokens);
      issued := issued + NewTokens(table0.Keys, tokens);
    }

    /**
     * `process_string`: the ids of the string's tokens (each looked up in the
     * defaultdict, which inserts the unknown ones with 0), truncated or padded
     * with the id of '__PAD__'.
     */
    method ProcessString(s: string) returns (ids: seq<int>)
      requires Valid()
      modifies this`tokenIndexLookup
      ensures Valid()
      ensures tokenIndexLookup == WithDefaults(old(tokenIndexLookup), tokenize(s))
      ensures ids == Encode(old(tokenIndexLookup), tokenize(s), embeddingSequenceLength, PadId)
    {
      var tokens := tokenize(s);
      ghost var table0 := tokenIndexLookup;
      var indices: seq<int> := [];
      var i := 0;
      while i < |tokens|
        invariant 0 <= i <= |tokens|
        invariant tokenIndexLookup == WithDefaults(table0, tokens[..i])
        invariant |indices| == i
        invariant forall j :: 0 <= j < i ==> indices[j] == Lookup(table0, tokens[j])
      {
        var token := tokens[i];
        assert tokens[..i + 1] == tokens[..i] + [token];
        WithDefaultsSnoc(table0, tokens[..i], token);
        WithDefaultsSpec(table0, tokens[..i + 1]);
        if token !in tokenIndexLookup {
          tokenIndexLookup := tokenIndexLookup[token := UnkId];
        }
        indices := indices + [tokenIndexLookup[token]];
        i := i + 1;
      }
      assert tokens[..i] == tokens;
      WithDefaultsValid(table0, nextTokenIndex, issued, tokens);
      EncodeFromIds(table0, tokens, indices, embeddingSequenceLength, PadId);
      var padId := tokenIndexLookup["__PAD__"];
      match embeddingSequenceLength
      case None => ids := indices;
      case Some(n) => ids := Pad(indices, n, padId);
    }

    /**
     * `transform`: every row through `process_string`. With a sequence length
     * set, every row has exactly that many ids.
     */
    method Transform(rows: seq<string>) returns (out: seq<seq<int>>)
      requires Valid()
      modifies this`tokenIndexLookup
      ensures Valid()
      ensures tokenIndexLookup == WithDefaults(old(tokenIndexLookup), Concat(TokenLists(rows)))
      ensures out == EncodeRows(old(tokenIndexLookup), TokenLists(rows), embeddingSequenceLength)
      ensures embeddingSequenceLength.Some? ==>
        forall i :: 0 <= i < |out| ==> |out[i]| == embeddingSequenceLength.value
    {
      ghost var table0 := tokenIndexLookup;
      ghost var lists := TokenLists(rows);
      out := [];
      var i := 0;
      while i < |rows|
        invariant 0 <= i <= |rows|
        invariant ValidTable(table0, nextTokenIndex, issued)
        invariant tokenIndexLookup == WithDefaults(table0, Concat(lists[..i]))
        invariant out == EncodeRows(table0, lists[..i], embeddingSequenceLength)
      {
        ghost var before := tokenIndexLookup;
        WithDefaultsValid(table0, nextTokenIndex, issued, Concat(lists[..i]));
        var ids := ProcessString(rows[i]);
        DefaultsStep(table0, lists, i, embeddingSequenceLength, before, tokenIndexLookup, out, ids);
        out := out + [ids];
        i := i + 1;
      }
      assert lists[..i] == lists;
      WithDefaultsValid(table0, nextTokenIndex, issued, Concat(lists));
    }
  }

  /** Ids do not change when the table only gained default entries. */
  lemma EncodeUnderDefaults(table: map<string, int>, looked: seq<string>, tokens: seq<string>, length: Option<nat>)
    ensures Encode(WithDefaults(table, looked), tokens, length, PadId) == Encode(table, tokens, length, PadId)
  {
    WithDefaultsSpec(table, looked);
  }

  /**
   * One more row through `process_string`: the table has then looked up the
   * tokens of one more row, and the ids of that row, looked up in the table
   * as it was, extend the rows so far.
   */
  lemma DefaultsStep(table: map<string, int>, lists: seq<seq<string>>, i: nat, length: Option<nat>,
                     before: map<string, int>, after: map<string, int>, out: seq<seq<int>>, ids: seq<int>)
    requires i < |lists|
    requires before == WithDefaults(table, Concat(lists[..i]))
    requires after == WithDefaults(before, lists[i])
    requires out == EncodeRows(table, lists[..i], length)
    requires ids == Encode(before, lists[i], length, PadId)
    ensures after == WithDefaults(table, Concat(lists[..i + 1]))
    ensures out + [ids] == EncodeRows(table, lists[..i + 1], length)
  {
    EncodeUnderDefaults(table, Concat(lists[..i]), lists[i], length);
    assert lists[..i + 1][..i] == lists[..i];
    WithDefaultsTwice(table, Concat(lists[..i]), lists[i]);
  }

  lemma WithDefaultsTwice(table: map<string, int>, a: seq<string>, b: seq<string>)
    ensures WithDefaults(WithDefaults(table, a), b) == WithDefaults(table, a + b)
  {
    WithDefaultsSpec(table, a);
    WithDefaultsSpec(WithDefaults(table, a), b);
    WithDefaultsSpec(table, a + b);
    assert (set t | t in a + b) == (set t | t in a) + (set t | t in b);
  }
}

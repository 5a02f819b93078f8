/**
 * Human-like typing into the search box (human_typing in google_scrapping.py).
 * Before an alphanumeric character the script may first type a wrong lowercase
 * letter and erase it with BACKSPACE; then it types the character itself. The
 * random choices are an explicit oracle, one entry per character; the pauses
 * between keys are not modelled.
 */
module Typing {
  import opened Wrappers
  import opened Seqs

  /** What random.choice("abcdefghijklmnopqrstuvwxyz") can return. */
  type Letter = c: char | 'a' <= c <= 'z' witness 'a'

  /** A key event sent to the element; BACKSPACE and ENTER are distinct from every character. */
  datatype Key = Char(c: char) | Backspace | Enter

  /** str.isalnum, restricted to ASCII letters and digits. */
  predicate IsAlnum(c: char)
  {
    ('a' <= c <= 'z') || ('A' <= c <= 'Z') || ('0' <= c <= '9')
  }

  /**
   * The random draw for character `k`: Some(letter) when random.random() < 0.05 and
   * `letter` is what random.choice would pick. Past the end of the oracle: no typo.
   */
  function Coin(coins: seq<Option<Letter>>, k: nat): Option<Letter>
  {
    if k < |coins| then coins[k] else None
  }

  /** The keys sent for one query character. */
  function KeysFor(c: char, coin: Option<Letter>): seq<Key>
  {
    if coin.Some? && IsAlnum(c) then [Char(coin.value), Backspace, Char(c)] else [Char(c)]
  }

  /** The keys sent for the whole query, one character after another. */
  function TypedKeys(query: string, coins: seq<Option<Letter>>): seq<Key>
  {
    if query == [] then []
    else TypedKeys(query[..|query| - 1], coins) + KeysFor(query[|query| - 1], Coin(coins, |query| - 1))
  }

  lemma TypedKeysSnoc(query: string, coins: seq<Option<Letter>>, i: nat)
    requires i < |query|
    ensures TypedKeys(query[..i + 1], coins) == TypedKeys(query[..i], coins) + KeysFor(query[i], Coin(coins, i))
  {
    assert query[..i + 1][..i] == query[..i];
  }

  /** The text in an input box after it has received `keys`, starting empty. */
  function Replay(keys: seq<Key>): string
  {
    if keys == [] then ""
    else
      var before := Replay(keys[..|keys| - 1]);
      match keys[|keys| - 1]
      case Char(c) => before + [c]
      case Backspace => if before == "" then "" else before[..|before| - 1]
      case Enter => before
  }

  /** The search box element: the keys it has received so far. */
  class SearchBox {
    var keys: seq<Key>

    constructor ()
      ensures keys == []
    {
      keys := [];
    }

    /** element.send_keys(k) */
    method SendKeys(k: Key)
      modifies this
      ensures keys == old(keys) + [k]
    {
      keys := keys + [k];
    }
  }

  /** One turn of human_typing's loop: maybe a typo and its BACKSPACE, then the character. */
  method TypeChar(box: SearchBox, c: char, coin: Option<Letter>)
    modifies box
    ensures box.keys == old(box.keys) + KeysFor(c, coin)
  {
    if coin.Some? && IsAlnum(c) {
      box.SendKeys(Char(coin.value));
      box.SendKeys(Backspace);
    }
    box.SendKeys(Char(c));
  }

  /** human_typing(element, query): sends the keys for each character in turn. */
  method HumanTyping(box: SearchBox, query: string, coins: seq<Option<Letter>>)
    modifies box
    ensures box.keys == old(box.keys) + TypedKeys(query, coins)
  {
    for i := 0 to |query|
      invariant box.keys == old(box.keys) + TypedKeys(query[..i], coins)
    {
      TypeChar(box, query[i], Coin(coins, i));
      TypedKeysSnoc(query, coins, i);
      ConcatAssoc(old(box.keys), TypedKeys(query[..i], coins), KeysFor(query[i], Coin(coins, i)));
    }
    assert query[..|query|] == query;
  }

  lemma ReplayAppendOne(keys: seq<Key>, k: Key)
    ensures Replay(keys + [k]) ==
      match k
      case Char(c) => Replay(keys) + [c]
      case Backspace => if Replay(keys) == "" then "" else Replay(keys)[..|Replay(keys)| - 1]
      case Enter => Replay(keys)
  {
    assert (keys + [k])[..|keys|] == keys;
  }

  /** Replaying the keys for one character appends exactly that character. */
  lemma ReplayKeysFor(keys: seq<Key>, c: char, coin: Option<Letter>)
    ensures Replay(keys + KeysFor(c, coin)) == Replay(keys) + [c]
  {
    if coin.Some? && IsAlnum(c) {
      var t := coin.value;
      ReplayAppendOne(keys, Char(t));
      ReplayAppendOne(keys + [Char(t)], Backspace);
      assert (Replay(keys) + [t])[..|Replay(keys)|] == Replay(keys);
      ReplayAppendOne(keys + [Char(t)] + [Backspace], Char(c));
      assert keys + [Char(t)] + [Backspace] + [Char(c)] == keys + KeysFor(c, coin);
    } else {
      ReplayAppendOne(keys, Char(c));
    }
  }

  /**
   * Whatever the random draws, the box holds exactly the query once the typed keys
   * are applied after whatever it already held: each character is typed once and in
   * order, and every typo is erased.
   */
  lemma {:induction false} ReplayTyped(before: seq<Key>, query: string, coins: seq<Option<Letter>>)
    ensures Replay(before + TypedKeys(query, coins)) == Replay(before) + query
  {
    if query == [] {
      assert before + TypedKeys(query, coins) == before;
    } else {
      var n := |query| - 1;
      var pre := TypedKeys(query[..n], coins);
      var last := KeysFor(query[n], Coin(coins, n));
      ReplayTyped(before, query[..n], coins);
      ReplayKeysFor(before + pre, query[n], Coin(coins, n));
      ConcatAssoc(before, pre, last);
      ConcatAssoc(Replay(before), query[..n], [query[n]]);
      TakeLast(query);
    }
  }

  /** The BACKSPACE at `k` erases a lowercase letter typed just before it and is followed by an alphanumeric character. */
  predicate ErasesTypo(ks: seq<Key>, k: int)
    requires 0 <= k < |ks|
  {
    1 <= k < |ks| - 1 && ks[k - 1].Char? && 'a' <= ks[k - 1].c <= 'z' &&
    ks[k + 1].Char? && IsAlnum(ks[k + 1].c)
  }

  /** Every BACKSPACE in `ks` erases a typo. */
  predicate TyposCorrected(ks: seq<Key>)
  {
    forall k :: 0 <= k < |ks| && ks[k] == Backspace ==> ErasesTypo(ks, k)
  }

  /**
   * Every BACKSPACE in the typed stream erases a lowercase letter typed just before
   * it, and is followed by the alphanumeric query character that the typo preceded.
   */
  lemma {:induction false} TypoShape(query: string, coins: seq<Option<Letter>>)
    ensures TyposCorrected(TypedKeys(query, coins))
  {
    if query != [] {
      var n := |query| - 1;
      TypoShape(query[..n], coins);
      var pre := TypedKeys(query[..n], coins);
      var ks := TypedKeys(query, coins);
      assert ks == pre + KeysFor(query[n], Coin(coins, n));
      assert TyposCorrected(pre);
      forall k | 0 <= k < |ks| && ks[k] == Backspace
        ensures ErasesTypo(ks, k)
      {
        if k < |pre| {
          assert pre[k] == Backspace;
          assert ks[k - 1] == pre[k - 1] && ks[k + 1] == pre[k + 1];
        } else {
          var coin := Coin(coins, n);
          assert coin.Some? && IsAlnum(query[n]);
          assert k == |pre| + 1;
          assert ks[k - 1] == Char(coin.value) && ks[k + 1] == Char(query[n]);
        }
      }
    }
  }

  /** human_typing never presses ENTER: the search is only submitted afterwards. */
  lemma {:induction false} NoEnterTyped(query: string, coins: seq<Option<Letter>>)
    ensures Enter !in TypedKeys(query, coins)
  {
    if query != [] {
      NoEnterTyped(query[..|query| - 1], coins);
    }
  }

  /** Without any typo draw the keys are the query's characters, one for one. */
  lemma {:induction false} NoTyposTypesQuery(query: string, coins: seq<Option<Letter>>)
    requires forall k :: 0 <= k < |coins| ==> coins[k].None?
    ensures |TypedKeys(query, coins)| == |query|
    ensures forall k :: 0 <= k < |query| ==> TypedKeys(query, coins)[k] == Char(query[k])
  {
    if query != [] {
      var n := |query| - 1;
      NoTyposTypesQuery(query[..n], coins);
      assert Coin(coins, n).None?;
    }
  }
}

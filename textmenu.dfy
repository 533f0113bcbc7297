/**
 * A keyboard menu: entries kept in a multimap ordered by an integer
 * `order`, shown one per line behind the keys of a fixed 36-character
 * alphabet; pressing the i-th key of that alphabet selects the i-th entry.
 *
 * The multimap is the sequence of its (order, entry) pairs in iteration
 * order. Its invariant is that the orders ascend; an insertion goes at
 * the end of the run of equal orders (section 23.2.4 of ISO/IEC
 * 14882:2011), so entries with equal order keep their insertion order.
 */
module TextMenu {
  import opened Wrappers

  const KEYS: string := "1234567890abcdefghijklmnopqrstuvwxyz"

  // `text` is the source's `label` (a reserved word here).
  datatype Entry = Entry(value: int, text: string)

  ghost predicate Sorted(es: seq<(int, Entry)>)
  {
    forall i, j :: 0 <= i < j < |es| ==> es[i].0 <= es[j].0
  }

  /** The position after the last item whose order is at most `order`. */
  function UpperBound(es: seq<(int, Entry)>, order: int): (k: nat)
    requires Sorted(es)
    ensures k <= |es|
    ensures forall j :: 0 <= j < k ==> es[j].0 <= order
    ensures forall j :: k <= j < |es| ==> es[j].0 > order
  {
    if es == [] || es[0].0 > order then 0 else 1 + UpperBound(es[1..], order)
  }

  /**
   * `entries.insert({order, e})`: the new item is placed so that the
   * orders still ascend, every item after it has a greater order, and
   * taking it out again leaves the old entries in their old order.
   */
  function Insert(es: seq<(int, Entry)>, order: int, e: Entry): (r: seq<(int, Entry)>)
    requires Sorted(es)
    ensures Sorted(r)
    ensures |r| == |es| + 1
    ensures exists k :: 0 <= k < |r| && r[k] == (order, e) && r[..k] + r[k + 1..] == es &&
                        forall j :: k < j < |r| ==> r[j].0 > order
  {
    var k := UpperBound(es, order);
    var r := es[..k] + [(order, e)] + es[k..];
    assert r[..k] + r[k + 1..] == es;
    r
  }

  /** `KEYS.find_first_of(c)`: the first position of KEYS holding a character that occurs in `c`. */
  function FindFirstOf(keys: string, c: string): (pos: Option<nat>)
    ensures pos.Some? ==> pos.value < |keys| && keys[pos.value] in c
    ensures pos.Some? ==> forall q :: 0 <= q < pos.value ==> keys[q] !in c
    ensures pos.None? ==> forall q :: 0 <= q < |keys| ==> keys[q] !in c
  {
    if keys == [] then None
    else if keys[0] in c then Some(0)
    else match FindFirstOf(keys[1..], c)
      case None => None
      case Some(p) => Some(p + 1)
  }

  /** `std::string s = " "; s.at(0) = key;`: the int is truncated to its low eight bits. */
  function KeyChar(key: int): char
  {
    (key % 256) as char
  }

  /** The line shown for the entry at position `i`. */
  function Line(i: nat, text: string): string
    requires i < |KEYS|
  {
    [KEYS[i]] + ": " + text
  }

  /** Where a character sits in KEYS, or -1 when it is not a key. */
  function KeyPos(ch: char): int
  {
    if '1' <= ch <= '9' then ch as int - '1' as int
    else if ch == '0' then 9
    else if 'a' <= ch <= 'z' then ch as int - 'a' as int + 10
    else -1
  }

  lemma KeyPosInverts()
    ensures forall i :: 0 <= i < |KEYS| ==> KeyPos(KEYS[i]) == i
  {
  }

  /** No key occurs twice, so each key names one line. */
  lemma KeysDistinct()
    ensures forall p, q :: 0 <= p < q < |KEYS| ==> KEYS[p] != KEYS[q]
  {
    KeyPosInverts();
  }

  /** The key shown on line `i` is found at position `i`: it selects the i-th entry. */
  lemma FindOwnKey(i: nat)
    requires i < |KEYS|
    ensures FindFirstOf(KEYS, [KEYS[i]]) == Some(i)
  {
    KeysDistinct();
  }

  class Menu {
    var entries: seq<(int, Entry)>

    ghost predicate Valid()
      reads this
    {
      Sorted(entries)
    }

    constructor ()
      ensures Valid() && entries == []
    {
      entries := [];
    }

    /** `addOption(value, label, order)`. */
    method AddOption(value: int, text: string, order: int)
      requires Valid()
      modifies this
      ensures Valid()
      ensures entries == Insert(old(entries), order, Entry(value, text))
    {
      entries := Insert(entries, order, Entry(value, text));
    }

    /** `clear()`. */
    method Clear()
      modifies this
      ensures Valid() && entries == []
    {
      entries := [];
    }

    /**
     * `update()`, without drawing: the lines stashed, one per entry in
     * iteration order. Past the 36th entry `KEYS.at` throws, which ends
     * the walk after 36 lines; `thrown` reports it.
     */
    method Update() returns (lines: seq<string>, thrown: bool)
      ensures thrown <==> |entries| > |KEYS|
      ensures |lines| == if thrown then |KEYS| else |entries|
      ensures forall i :: 0 <= i < |lines| ==> lines[i] == Line(i, entries[i].1.text)
    {
      lines := [];
      var i := 0;
      while i < |entries|
        invariant 0 <= i <= |entries| && i <= |KEYS|
        invariant |lines| == i
        invariant forall j :: 0 <= j < i ==> lines[j] == Line(j, entries[j].1.text)
      {
        if i >= |KEYS| {
          return lines, true;
        }
        lines := lines + [[KEYS[i]] + ": " + entries[i].1.text];
        i := i + 1;
      }
      return lines, false;
    }

    /**
     * `input(c, &result)`: `prior` is what `*result` held before the call,
     * `result` what it holds after.
     */
    method Input(c: string, prior: int) returns (found: bool, result: int)
      ensures var pos := FindFirstOf(KEYS, c);
        found <==> pos.Some? && pos.value < |entries|
      ensures var pos := FindFirstOf(KEYS, c);
        found ==> result == entries[pos.value].1.value
      ensures !found ==> result == prior
    {
      var pos := FindFirstOf(KEYS, c);
      if pos.None? {
        return false, prior;
      }
      var i := 0;
      while i < |entries|
        invariant 0 <= i <= |entries|
        invariant i <= pos.value
      {
        if i == pos.value {
          return true, entries[i].1.value;
        }
        i := i + 1;
      }
      return false, prior;
    }

    /** `input(key, &result)`: the same as `input` on the one-character string of the key. */
    method InputKey(key: int, prior: int) returns (found: bool, result: int)
      ensures found <==> exists i :: 0 <= i < |KEYS| && i < |entries| && KEYS[i] == KeyChar(key)
      ensures forall i :: 0 <= i < |KEYS| && KEYS[i] == KeyChar(key) ==>
                found == (i < |entries|) && (found ==> result == entries[i].1.value)
      ensures !found ==> result == prior
    {
      var s := [KeyChar(key)];
      found, result := Input(s, prior);
      forall i | 0 <= i < |KEYS| && KEYS[i] == KeyChar(key)
        ensures FindFirstOf(KEYS, s) == Some(i)
      {
        FindOwnKey(i);
      }
    }
  }
}

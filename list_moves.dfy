/** The two list operations the drag-reorder handler performs on the team
    list, with the index rules of Python's `list.pop` and `list.insert`,
    and the move they make together. */
module ListMoves {
  import opened Options

  /** The sequence without the element at index `k`. */
  function RemoveAt<T>(s: seq<T>, k: nat): (r: seq<T>)
    requires k < |s|
    ensures |r| == |s| - 1
    ensures forall i :: 0 <= i < k ==> r[i] == s[i]
    ensures forall i :: k <= i < |r| ==> r[i] == s[i + 1]
    ensures multiset(r) + multiset{s[k]} == multiset(s)
  {
    assert s == s[..k] + [s[k]] + s[k + 1..];
    s[..k] + s[k + 1..]
  }

  /** The position `list.pop(i)` removes from a list of length `n`:
      a negative index counts from the end, and an index outside
      `[-n, n)` raises IndexError (None). */
  function PopIndex(n: nat, i: int): (r: Option<nat>)
    ensures r.Some? <==> 0 <= i + n && i < n
    ensures r.Some? ==> r.value < n && (r.value == i || r.value == i + n)
  {
    if 0 <= i < n then Some(i)
    else if 0 <= i + n && i < 0 then Some(i + n)
    else None
  }

  /** The position `list.insert(i, x)` puts `x` at in a list of length
      `n`: a negative index counts from the end, and an index past either
      end is clamped to that end (insert never raises). */
  function InsertIndex(n: nat, i: int): (r: nat)
    ensures r <= n
    ensures 0 <= i <= n ==> r == i
    ensures 0 <= i + n && i < 0 ==> r == i + n
    ensures i + n < 0 ==> r == 0
    ensures n < i ==> r == n
  {
    if i < 0 then (if i + n < 0 then 0 else i + n)
    else if i > n then n
    else i
  }

  /** `item = s.pop(i)`: the removed item and the remaining list, or None
      where Python raises IndexError. */
  function Pop<T>(s: seq<T>, i: int): (r: Option<(T, seq<T>)>)
    ensures r.Some? <==> 0 <= i + |s| && i < |s|
    ensures r.Some? ==> |r.value.1| == |s| - 1
    ensures r.Some? ==> multiset(r.value.1) + multiset{r.value.0} == multiset(s)
    ensures 0 <= i < |s| ==> r == Some((s[i], RemoveAt(s, i)))
    ensures 0 <= i + |s| && i < 0 ==> r == Some((s[i + |s|], RemoveAt(s, i + |s|)))
  {
    match PopIndex(|s|, i)
    case None => None
    case Some(k) => Some((s[k], RemoveAt(s, k)))
  }

  /** `s.insert(i, x)`: `x` placed before the element at the (normalised
      and clamped) index. */
  function Insert<T>(s: seq<T>, i: int, x: T): (r: seq<T>)
    ensures |r| == |s| + 1
    ensures multiset(r) == multiset(s) + multiset{x}
    ensures 0 <= i <= |s| ==> r[i] == x && RemoveAt(r, i) == s
    ensures r[InsertIndex(|s|, i)] == x && RemoveAt(r, InsertIndex(|s|, i)) == s
  {
    var k := InsertIndex(|s|, i);
    assert s == s[..k] + s[k..];
    var r := s[..k] + [x] + s[k..];
    assert RemoveAt(r, k) == s;
    r
  }

  /** `item = s.pop(from); s.insert(to, item)`, or None when the pop raises. */
  function Moved<T>(s: seq<T>, from: int, to: int): (r: Option<seq<T>>)
  {
    match Pop(s, from)
    case None => None
    case Some((x, rest)) => Some(Insert(rest, to, x))
  }

  /** The move fails exactly when `from` is outside what `pop` accepts; when
      it succeeds the list keeps its length and its elements with their
      multiplicities, whatever `to` is. */
  lemma MovedIsPermutation<T>(s: seq<T>, from: int, to: int)
    ensures Moved(s, from, to).Some? <==> 0 <= from + |s| && from < |s|
    ensures Moved(s, from, to).Some? ==>
              |Moved(s, from, to).value| == |s| &&
              multiset(Moved(s, from, to).value) == multiset(s)
  {
  }

  /** With both indices inside the list, the moved team lands at `to`, and
      taking it out again leaves the other teams in their old relative order. */
  lemma MovedPlacesItem<T>(s: seq<T>, from: nat, to: nat)
    requires from < |s| && to < |s|
    ensures Moved(s, from, to).Some?
    ensures |Moved(s, from, to).value| == |s|
    ensures Moved(s, from, to).value[to] == s[from]
    ensures RemoveAt(Moved(s, from, to).value, to) == RemoveAt(s, from)
  {
  }

  /** Putting the removed element back where it was restores the sequence. */
  lemma InsertRemoved<T>(s: seq<T>, k: nat)
    requires k < |s|
    ensures Insert(RemoveAt(s, k), k, s[k]) == s
  {
    var rest := RemoveAt(s, k);
    assert rest[..k] == s[..k];
    assert rest[k..] == s[k + 1..];
    assert Insert(rest, k, s[k]) == rest[..k] + [s[k]] + rest[k..];
    assert s == s[..k] + [s[k]] + s[k + 1..];
  }

  /** Moving a team onto its own position leaves the list as it was. */
  lemma MovedInPlace<T>(s: seq<T>, i: nat)
    requires i < |s|
    ensures Moved(s, i, i) == Some(s)
  {
    assert Pop(s, i) == Some((s[i], RemoveAt(s, i)));
    InsertRemoved(s, i);
  }

  /** Dragging the team back from `to` to `from` restores the list. */
  lemma MovedUndo<T>(s: seq<T>, from: nat, to: nat)
    requires from < |s| && to < |s|
    ensures Moved(Moved(s, from, to).value, to, from) == Some(s)
  {
    MovedPlacesItem(s, from, to);
    var r := Moved(s, from, to).value;
    assert Pop(r, to) == Some((s[from], RemoveAt(s, from)));
    InsertRemoved(s, from);
  }
}

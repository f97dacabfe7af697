/** The in-memory collection every entity page keeps, and the three local updates
    the pages apply after a confirmed reply: append the server's record (201),
    overlay the submitted fields on the matching entries (200), and filter out
    the deleted id (204). */
module Collection {

  /** One record as the server sent it: its id, the keys the page's form edits,
      and whatever other keys the record carries, which the form never touches. */
  datatype Row<F, X> = Row(id: int, fields: F, rest: X)

  /** Keys of a server record that no form edits (timestamps and the like). */
  type OtherKeys = map<string, string>

  function Ids<F, X>(s: seq<Row<F, X>>): (ids: seq<int>)
    ensures |ids| == |s| && forall i :: 0 <= i < |s| ==> ids[i] == s[i].id
  {
    seq(|s|, i requires 0 <= i < |s| => s[i].id)
  }

  ghost predicate IdsUnique<F, X>(s: seq<Row<F, X>>) {
    forall i, j :: 0 <= i < j < |s| ==> s[i].id != s[j].id
  }

  /** `[...prev, response.data]` */
  function Append<F, X>(s: seq<Row<F, X>>, created: Row<F, X>): (r: seq<Row<F, X>>)
    ensures |r| == |s| + 1
    ensures r[..|s|] == s && r[|s|] == created
  {
    s + [created]
  }

  /** `prev.map(x => x.id === id ? { ...x, ...data } : x)`: the submitted form
      fields replace those of every entry with the given id. */
  function Overlay<F, X>(s: seq<Row<F, X>>, id: int, data: F): (r: seq<Row<F, X>>)
    ensures |r| == |s|
    ensures forall i :: 0 <= i < |s| && s[i].id == id ==> r[i] == Row(id, data, s[i].rest)
    ensures forall i :: 0 <= i < |s| && s[i].id != id ==> r[i] == s[i]
  {
    if s == [] then []
    else [if s[0].id == id then s[0].(fields := data) else s[0]] + Overlay(s[1..], id, data)
  }

  /** `prev.filter(x => x.id !== id)` */
  function Remove<F, X>(s: seq<Row<F, X>>, id: int): (r: seq<Row<F, X>>)
    ensures |r| <= |s|
    ensures forall e :: e in r ==> e in s && e.id != id
    ensures forall e :: e in s && e.id != id ==> e in r
  {
    if s == [] then []
    else (if s[0].id != id then [s[0]] else []) + Remove(s[1..], id)
  }

  /** The appended record is found at the end with the id the server assigned. */
  lemma AppendKeepsUnique<F, X>(s: seq<Row<F, X>>, created: Row<F, X>)
    requires IdsUnique(s)
    requires created.id !in Ids(s)
    ensures IdsUnique(Append(s, created))
    ensures Ids(Append(s, created)) == Ids(s) + [created.id]
  {
    var r := Append(s, created);
    forall i, j | 0 <= i < j < |r| ensures r[i].id != r[j].id {
      if j == |s| {
        assert Ids(s)[i] == r[i].id;
      }
    }
  }

  /** An update never changes which ids the collection holds, nor their order. */
  lemma OverlayKeepsIds<F, X>(s: seq<Row<F, X>>, id: int, data: F)
    ensures Ids(Overlay(s, id, data)) == Ids(s)
  {
  }

  /** Applying the same update twice is the same as applying it once. */
  lemma OverlayIdempotent<F, X>(s: seq<Row<F, X>>, id: int, data: F)
    ensures Overlay(Overlay(s, id, data), id, data) == Overlay(s, id, data)
  {
  }

  /** An update of an id the collection does not hold changes nothing. */
  lemma OverlayAbsent<F, X>(s: seq<Row<F, X>>, id: int, data: F)
    requires id !in Ids(s)
    ensures Overlay(s, id, data) == s
  {
    var r := Overlay(s, id, data);
    forall i | 0 <= i < |s| ensures r[i] == s[i] {
      assert Ids(s)[i] == s[i].id;
    }
  }

  /** Filtering distributes over concatenation: the survivors keep their relative order. */
  lemma {:induction false} RemoveConcat<F, X>(a: seq<Row<F, X>>, b: seq<Row<F, X>>, id: int)
    ensures Remove(a + b, id) == Remove(a, id) + Remove(b, id)
  {
    if a == [] {
      assert a + b == b;
    } else {
      assert (a + b)[1..] == a[1..] + b;
      RemoveConcat(a[1..], b, id);
    }
  }

  /** Every entry with another id survives exactly as often as it occurred; none with the id does. */
  lemma {:induction false} RemoveCounts<F, X>(s: seq<Row<F, X>>, id: int)
    ensures forall e: Row<F, X> :: e.id != id ==> multiset(Remove(s, id))[e] == multiset(s)[e]
    ensures forall e: Row<F, X> :: e.id == id ==> multiset(Remove(s, id))[e] == 0
  {
    if s != [] {
      RemoveCounts(s[1..], id);
      assert s == [s[0]] + s[1..];
    }
  }

  /** Deleting an id the collection does not hold changes nothing. */
  lemma {:induction false} RemoveAbsent<F, X>(s: seq<Row<F, X>>, id: int)
    requires id !in Ids(s)
    ensures Remove(s, id) == s
  {
    if s != [] {
      assert Ids(s)[0] == s[0].id;
      assert forall k :: 0 <= k < |s| - 1 ==> Ids(s[1..])[k] == Ids(s)[k + 1];
      RemoveAbsent(s[1..], id);
    }
  }

  /** A collection with unique ids: its head's id is not among the tail's, and the tail's ids are unique. */
  lemma UniqueSplit<F, X>(s: seq<Row<F, X>>)
    requires IdsUnique(s) && s != []
    ensures IdsUnique(s[1..])
    ensures s[0].id !in Ids(s[1..])
    ensures forall e :: e in s[1..] ==> e.id != s[0].id
  {
    forall k | 0 <= k < |s| - 1 ensures Ids(s[1..])[k] != s[0].id {
      assert s[1..][k] == s[k + 1];
    }
  }

  /** Putting a row in front of a collection with unique ids, none of them its own, keeps the ids unique. */
  lemma UniqueCons<F, X>(x: Row<F, X>, t: seq<Row<F, X>>)
    requires IdsUnique(t)
    requires forall e :: e in t ==> e.id != x.id
    ensures IdsUnique([x] + t)
  {
    var r := [x] + t;
    forall i, j | 0 <= i < j < |r| ensures r[i].id != r[j].id {
      assert r[j] == t[j - 1];
      if i > 0 {
        assert r[i] == t[i - 1];
      }
    }
  }

  /** Deleting keeps the ids of the collection unique. */
  lemma {:induction false} RemoveKeepsUnique<F, X>(s: seq<Row<F, X>>, id: int)
    requires IdsUnique(s)
    ensures IdsUnique(Remove(s, id))
  {
    if s != [] {
      UniqueSplit(s);
      RemoveKeepsUnique(s[1..], id);
      if s[0].id != id {
        UniqueCons(s[0], Remove(s[1..], id));
      }
    }
  }

  /** With unique ids, deleting a held id shrinks the collection by exactly one. */
  lemma {:induction false} RemoveHeldShrinks<F, X>(s: seq<Row<F, X>>, id: int)
    requires IdsUnique(s)
    requires id in Ids(s)
    ensures |Remove(s, id)| == |s| - 1
  {
    UniqueSplit(s);
    if s[0].id == id {
      RemoveAbsent(s[1..], id);
    } else {
      var k :| 0 <= k < |s| && Ids(s)[k] == id;
      assert Ids(s[1..])[k - 1] == id;
      RemoveHeldShrinks(s[1..], id);
    }
  }
}

/**
 * The market-data provider's JSON reply, as the HTTP client's untyped map
 * decoding hands it to the services. Only the shapes the services inspect
 * are distinguished.
 */
module Provider {
  import opened Optional

  /** A decoded JSON value; `Other` is a number, boolean or array. */
  datatype Value = Null | Text(text: string) | Object(members: seq<Member>) | Other

  /** One member of a decoded JSON object, in document order; a key may repeat. */
  datatype Member = Member(key: string, value: Value)

  /**
   * The outcome of one `getForObject` call: a null body, a decoded top-level
   * map, or an exception with its message.
   */
  datatype Reply = NoBody | Body(response: map<string, Value>) | Thrown(message: string)

  /**
   * `Map.get` on a decoded JSON object. The decoder puts the members into the
   * map in document order, so a repeated key holds its last value.
   */
  function Get(members: seq<Member>, key: string): (r: Option<Value>)
    ensures r.None? <==> forall i :: 0 <= i < |members| ==> members[i].key != key
    ensures r.Some? ==> exists i :: 0 <= i < |members| && members[i] == Member(key, r.value) &&
                                    forall j :: i < j < |members| ==> members[j].key != key
  {
    if members == [] then None
    else
      var n := |members| - 1;
      if members[n].key == key then Some(members[n].value)
      else
        var init := members[..n];
        var r := Get(init, key);
        assert r.None? ==> forall i :: 0 <= i < |members| ==> members[i].key != key by {
          if r.None? {
            forall i | 0 <= i < |members| ensures members[i].key != key {
              if i < n { assert members[i] == init[i]; }
            }
          }
        }
        r
  }

  /** No two members share a key, as in a map. */
  predicate DistinctKeys(es: seq<Member>) {
    forall i, j :: 0 <= i < j < |es| ==> es[i].key != es[j].key
  }

  /** On distinct keys, `Get` finds exactly the members present. */
  lemma GetDistinct(es: seq<Member>, k: string, v: Value)
    requires DistinctKeys(es)
    ensures Get(es, k) == Some(v) <==> Member(k, v) in es
  {
    if Member(k, v) in es {
      var j :| 0 <= j < |es| && es[j] == Member(k, v);
      var r := Get(es, k);
      var i :| 0 <= i < |es| && es[i] == Member(k, r.value) &&
               forall j :: i < j < |es| ==> es[j].key != k;
      assert i == j;
    }
  }

  /**
   * `LinkedHashMap.put` of one decoded member: a key already present keeps
   * its position and takes the new value; a new key goes at the end.
   */
  function PutMember(es: seq<Member>, m: Member): (r: seq<Member>)
    requires DistinctKeys(es)
    ensures DistinctKeys(r)
    ensures forall i :: 0 <= i < |es| && es[i].key == m.key ==> r == es[i := m]
    ensures (forall i :: 0 <= i < |es| ==> es[i].key != m.key) ==> r == es + [m]
  {
    if es == [] then [m]
    else if es[0].key == m.key then [m] + es[1..]
    else
      var t := PutMember(es[1..], m);
      assert forall i :: 0 < i < |es| ==> es[i] == es[1..][i - 1];
      [es[0]] + t
  }

  /**
   * The entries of a decoded JSON object in iteration order: the decoder puts
   * the members into a `LinkedHashMap` one by one, so each key appears once,
   * at its first position, holding its last value.
   */
  function Entries(members: seq<Member>): (r: seq<Member>)
    ensures DistinctKeys(r)
  {
    if members == [] then []
    else PutMember(Entries(members[..|members| - 1]), members[|members| - 1])
  }

  /** The entries hold what `Map.get` finds: the same keys, each with its last value. */
  lemma {:induction false} EntriesLookup(members: seq<Member>, k: string)
    ensures Get(Entries(members), k) == Get(members, k)
  {
    if members != [] {
      var init, m := members[..|members| - 1], members[|members| - 1];
      var es := Entries(init);
      var r := PutMember(es, m);
      EntriesLookup(init, k);
      if k == m.key {
        assert Member(m.key, m.value) in r by {
          if i :| 0 <= i < |es| && es[i].key == m.key {
            assert r[i] == m;
          } else {
            assert r[|es|] == m;
          }
        }
        GetDistinct(r, k, m.value);
      } else {
        // away from m's key, r holds the same members as es
        forall v ensures Member(k, v) in r <==> Member(k, v) in es {
          if i :| 0 <= i < |es| && es[i].key == m.key {
            assert r == es[i := m];
            if Member(k, v) in es {
              var j :| 0 <= j < |es| && es[j] == Member(k, v);
              assert r[j] == es[j];
            }
          } else {
            assert r == es + [m];
          }
        }
        match Get(es, k)
        case Some(v) =>
          GetDistinct(es, k, v);
          GetDistinct(r, k, v);
        case None =>
          if Get(r, k).Some? {
            GetDistinct(r, k, Get(r, k).value);
            GetDistinct(es, k, Get(r, k).value);
            assert false;
          }
      }
    }
  }

  /** A key written twice is one entry, holding the later value. */
  lemma RepeatedKeyOneEntry(earlier: Member, later: Member)
    requires earlier.key == later.key
    ensures Entries([earlier, later]) == [later]
  {
    assert [earlier, later][..1] == [earlier];
    assert [earlier][..0] == [];
    assert Entries([earlier]) == [earlier];
    assert PutMember([earlier], later) == [earlier][0 := later];
  }

  /** An object whose keys are already distinct is iterated as written. */
  lemma {:induction false} EntriesOfDistinct(members: seq<Member>)
    requires DistinctKeys(members)
    ensures Entries(members) == members
  {
    if members != [] {
      var init := members[..|members| - 1];
      EntriesOfDistinct(init);
      assert members == init + [members[|members| - 1]];
    }
  }
}

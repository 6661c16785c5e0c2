/** The tag model shared by both tools: name/value annotations on a transaction,
    the filters a discovery query puts on them, and the name-to-value dictionary
    the query tool builds from a transaction's tags. */
module Tags {
  import opened Common

  /** A name/value annotation on a published transaction. Names may repeat. */
  datatype Tag = Tag(name: string, value: string)

  /** A query filter: a transaction passes when one of its tags has this name
      and one of these values. */
  datatype Filter = Filter(name: string, values: seq<string>)

  /** The meaning assumed for a filter on the indexing service: some tag has the
      filter's name and one of its values. */
  predicate Satisfies(tags: seq<Tag>, f: Filter)
  {
    exists i :: 0 <= i < |tags| && tags[i].name == f.name && tags[i].value in f.values
  }

  /** The dictionary built by assigning `tags[tag.name] = tag.value` for each tag
      in order: a later tag overwrites an earlier one with the same name. */
  function TagMap(tags: seq<Tag>): (r: map<string, string>)
    ensures forall i :: 0 <= i < |tags| ==> tags[i].name in r
    ensures forall k :: k in r ==> Tag(k, r[k]) in tags
  {
    if tags == [] then map[]
    else TagMap(tags[..|tags| - 1])[tags[|tags| - 1].name := tags[|tags| - 1].value]
  }

  /** `i` is the position of the last tag named `k`. */
  predicate LastNamed(tags: seq<Tag>, i: int, k: string)
  {
    0 <= i < |tags| && tags[i].name == k && forall j :: i < j < |tags| ==> tags[j].name != k
  }

  /** Some tag is named `k`. */
  predicate HasName(tags: seq<Tag>, k: string)
  {
    exists i :: 0 <= i < |tags| && tags[i].name == k
  }

  lemma TagMapKeys(tags: seq<Tag>, k: string)
    ensures k in TagMap(tags) <==> HasName(tags, k)
  {
    var m := TagMap(tags);
    if k in m {
      var i :| 0 <= i < |tags| && tags[i] == Tag(k, m[k]);
    }
  }

  lemma {:induction false} TagMapLast(tags: seq<Tag>, k: string, i: int)
    requires LastNamed(tags, i, k)
    ensures k in TagMap(tags) && TagMap(tags)[k] == tags[i].value
  {
    var n := |tags| - 1;
    var init := tags[..n];
    assert TagMap(tags) == TagMap(init)[tags[n].name := tags[n].value];
    if i != n {
      assert tags[n].name != k;
      forall j | i < j < |init| ensures init[j].name != k {
        assert init[j] == tags[j];
      }
      assert init[i] == tags[i];
      TagMapLast(init, k, i);
    }
  }

  /** The dictionary has exactly the names that occur, and each maps to the value
      of the last tag with that name. */
  lemma TagMapLastWins(tags: seq<Tag>, k: string)
    ensures k in TagMap(tags) <==> exists i :: 0 <= i < |tags| && tags[i].name == k
    ensures forall i :: LastNamed(tags, i, k) ==> k in TagMap(tags) && TagMap(tags)[k] == tags[i].value
  {
    TagMapKeys(tags, k);
    forall i | LastNamed(tags, i, k)
      ensures k in TagMap(tags) && TagMap(tags)[k] == tags[i].value
    {
      TagMapLast(tags, k, i);
    }
  }

  /** The loop `tags.forEach(tag => map[tag.name] = tag.value)`. */
  method DecodeTags(tags: seq<Tag>) returns (m: map<string, string>)
    ensures m == TagMap(tags)
  {
    m := map[];
    var i := 0;
    while i < |tags|
      invariant 0 <= i <= |tags|
      invariant m == TagMap(tags[..i])
    {
      assert tags[..i + 1][..i] == tags[..i];
      m := m[tags[i].name := tags[i].value];
      i := i + 1;
    }
    assert tags[..|tags|] == tags;
  }

  /** `m[k] || '-'`: a missing or empty entry shows as a dash. */
  function Shown(m: map<string, string>, k: string): string
  {
    if k in m && m[k] != "" then m[k] else "-"
  }

  /** What a record displays for tag `k`: the value of the last tag with that name,
      or a dash when no tag has it or that value is empty. */
  lemma ShownTag(tags: seq<Tag>, k: string)
    ensures (forall i :: 0 <= i < |tags| ==> tags[i].name != k) ==> Shown(TagMap(tags), k) == "-"
    ensures forall i :: LastNamed(tags, i, k) ==>
      Shown(TagMap(tags), k) == (if tags[i].value == "" then "-" else tags[i].value)
  {
    TagMapLastWins(tags, k);
  }
}

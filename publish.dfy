/** How the two tools meet: the tags the upload tool puts on a component,
    read against the tag filters of a discovery search. The lemmas say when
    those tags pass the filters and when they fail one of them. */
module Publish {
  import opened Common
  import opened Tags
  import Query
  import Upload

  /** The tags the upload tool puts on a structured-data file. */
  lemma ComponentTags(c: Upload.Config)
    requires Truthy(c.file) && Upload.ExtName(c.file.value) == ".json" && Truthy(c.kind)
    ensures Upload.PlanFor(c).Publish?
    ensures Upload.PlanFor(c).tags ==
      [Tag("Content-Type", "application/json"), Tag(c.tag, c.kind.value), Tag("Version", c.version)]
  {
    var ext := Upload.ExtName(c.file.value);
    assert |ext| == 5 && ext[1] == 'j';
    assert !Upload.IsDocument(ext);
  }

  /** The tags of a JSON component with discovery tag `n`, type `k` and version `v`. */
  function ComponentTagList(n: string, k: string, v: string): seq<Tag>
  {
    [Tag("Content-Type", "application/json"), Tag(n, k), Tag("Version", v)]
  }

  /** Every filter of a search that agrees with a component's tags is passed. */
  lemma {:induction false} ComponentPassesFilters(a: Query.Args, n: string, k: string, v: string)
    requires a.kind == Some(k) && a.tag == n
    requires Query.FiltersContentType(a) ==> a.contentType == "application/json"
    requires Truthy(a.version) ==> a.version.value == v
    ensures forall i :: 0 <= i < |Query.FilterList(a)| ==> Satisfies(ComponentTagList(n, k, v), Query.FilterList(a)[i])
  {
    var tags := ComponentTagList(n, k, v);
    var fs := Query.FilterList(a);
    var ct := Query.OneIf(Query.FiltersContentType(a));
    forall i | 0 <= i < |fs| ensures Satisfies(tags, fs[i]) {
      if Query.FiltersContentType(a) && i == 0 {
        assert tags[0].name == fs[i].name && tags[0].value in fs[i].values;
      } else if i == ct && Truthy(a.kind) {
        assert tags[1].name == fs[i].name && tags[1].value in fs[i].values;
      } else {
        assert tags[2].name == fs[i].name && tags[2].value in fs[i].values;
      }
    }
  }

  /** A component uploaded with type `k` under discovery tag `n` passes every
      filter of a search for type `k` under tag `n`, whether that search leaves
      the content type at its default, turns it off with `any`, and asks for the
      uploaded version or for none. */
  lemma UploadedComponentPassesFilters(c: Upload.Config, a: Query.Args)
    requires Truthy(c.file) && Upload.ExtName(c.file.value) == ".json" && Truthy(c.kind)
    requires a.kind == c.kind && a.tag == c.tag
    requires Query.FiltersContentType(a) ==> a.contentType == "application/json"
    requires Truthy(a.version) ==> a.version.value == c.version
    ensures forall f :: f in Query.FilterList(a) ==> Satisfies(Upload.PlanFor(c).tags, f)
  {
    ComponentTags(c);
    assert Upload.PlanFor(c).tags == ComponentTagList(c.tag, c.kind.value, c.version);
    ComponentPassesFilters(a, c.tag, c.kind.value, c.version);
  }

  lemma {:induction false} VersionMismatch(n: string, k: string, v: string, w: string)
    requires w != v && !(n == "Version" && k == w)
    ensures !Satisfies(ComponentTagList(n, k, v), Filter("Version", [w]))
  {
    var tags := ComponentTagList(n, k, v);
    assert |tags[0].name| == 12;
    forall i | 0 <= i < |tags| && tags[i].name == "Version"
      ensures tags[i].value != w
    {
      if i == 1 {
        assert tags[1] == Tag(n, k);
      } else if i == 2 {
        assert tags[2] == Tag("Version", v);
      }
    }
  }

  /** A search for another version misses the component: its Version filter
      cannot pass, unless the discovery tag is itself named Version and carries
      the requested version as the type. */
  lemma OtherVersionIsMissed(c: Upload.Config, a: Query.Args)
    requires Truthy(c.file) && Upload.ExtName(c.file.value) == ".json" && Truthy(c.kind)
    requires Truthy(a.version) && a.version.value != c.version
    requires !(c.tag == "Version" && c.kind.value == a.version.value)
    ensures Filter("Version", [a.version.value]) in Query.FilterList(a)
    ensures !Satisfies(Upload.PlanFor(c).tags, Filter("Version", [a.version.value]))
  {
    ComponentTags(c);
    assert Upload.PlanFor(c).tags == ComponentTagList(c.tag, c.kind.value, c.version);
    VersionMismatch(c.tag, c.kind.value, c.version, a.version.value);
    var fs := Query.FilterList(a);
    assert fs[Query.OneIf(Query.FiltersContentType(a)) + Query.OneIf(Truthy(a.kind))] ==
      Filter("Version", [a.version.value]);
  }

  lemma {:induction false} DefaultTagMismatch(k: string, v: string, w: string)
    ensures !Satisfies(ComponentTagList(Upload.Defaults.tag, k, v), Filter(Query.Defaults.tag, [w]))
  {
    var tags := ComponentTagList(Upload.Defaults.tag, k, v);
    assert |Query.Defaults.tag| == 13;
    forall i | 0 <= i < |tags| ensures tags[i].name != Query.Defaults.tag {
      if i == 0 {
        assert |tags[0].name| == 12;
      } else if i == 1 {
        assert |tags[1].name| == 9;
      } else {
        assert |tags[2].name| == 7;
      }
    }
  }

  /** The two tools' default discovery tags differ (`web4-test` when uploading,
      `istartproject` when searching), so a component uploaded without `--tag`
      fails the tag filters of a search without `--tag` for the same type. */
  lemma DefaultTagsMissEachOther(c: Upload.Config, a: Query.Args)
    requires Truthy(c.file) && Upload.ExtName(c.file.value) == ".json" && Truthy(c.kind)
    requires c.tag == Upload.Defaults.tag && a.tag == Query.Defaults.tag
    requires a.kind == c.kind
    ensures Filter(a.tag, [a.kind.value]) in Query.FilterList(a)
    ensures !Satisfies(Upload.PlanFor(c).tags, Filter(a.tag, [a.kind.value]))
  {
    ComponentTags(c);
    assert Upload.PlanFor(c).tags == ComponentTagList(c.tag, c.kind.value, c.version);
    DefaultTagMismatch(c.kind.value, c.version, a.kind.value);
    var fs := Query.FilterList(a);
    assert fs[Query.OneIf(Query.FiltersContentType(a))] == Filter(a.tag, [a.kind.value]);
  }

  /** The tags the upload tool puts on a page. */
  lemma PageTags(c: Upload.Config)
    requires Truthy(c.file) && Upload.IsDocument(Upload.ExtName(c.file.value))
    ensures Upload.PlanFor(c).Publish?
    ensures Upload.PlanFor(c).tags ==
      [Tag("Content-Type", "text/html"), Tag("App-Name", "Web4-CLI"), Tag("Version", c.version)]
  {
  }

  lemma PageTagsMissJson(version: string)
    ensures !Satisfies([Tag("Content-Type", "text/html"), Tag("App-Name", "Web4-CLI"), Tag("Version", version)],
                       Filter("Content-Type", ["application/json"]))
  {
    var tags := [Tag("Content-Type", "text/html"), Tag("App-Name", "Web4-CLI"), Tag("Version", version)];
    forall i | 0 <= i < |tags| && tags[i].name == "Content-Type"
      ensures tags[i].value != "application/json"
    {
      if i == 0 {
        assert |tags[0].value| == 9;
      }
    }
  }

  /** A page is tagged `text/html`, so a search that keeps the default
      `application/json` content type fails on its Content-Type filter. */
  lemma PageMissesDefaultContentType(c: Upload.Config, a: Query.Args)
    requires Truthy(c.file) && Upload.IsDocument(Upload.ExtName(c.file.value))
    requires a.contentType == "application/json"
    ensures Filter("Content-Type", ["application/json"]) in Query.FilterList(a)
    ensures !Satisfies(Upload.PlanFor(c).tags, Filter("Content-Type", ["application/json"]))
  {
    PageTags(c);
    PageTagsMissJson(c.version);
    DefaultContentTypeFilter(a);
  }

  lemma DefaultContentTypeFilter(a: Query.Args)
    requires a.contentType == "application/json"
    ensures Filter("Content-Type", ["application/json"]) in Query.FilterList(a)
  {
    assert |a.contentType| == 16;
    assert Query.FilterList(a)[0] == Filter("Content-Type", ["application/json"]);
  }
}

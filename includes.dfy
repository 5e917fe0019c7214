/**
 * Include resolution of the later compiler (`parseIncludes`, index.js:54-109):
 * local fragments are read and spread into the document in list order, template
 * items become GitLab URLs that are fetched together and spread in afterwards,
 * and the `stages` lists of all of them are concatenated and deduplicated.
 *
 * The file system is the map `files` from a path to its parsed document (a path
 * absent from it does not exist); a remote fetch is the function `fetch`, which
 * yields the parsed body or `None` when the request fails.
 */
module Includes {
  import opened Wrappers
  import opened Yaml
  import Seqs

  const TemplateBase := "https://gitlab.com/gitlab-org/gitlab/-/raw/master/lib/gitlab/ci/templates/"

  type Files = map<string, Obj>
  type Fetcher = string -> Option<Obj>

  /** The state the include loop updates: the document, the stage list and the template URLs. */
  datatype Acc = Acc(doc: Obj, stages: seq<Value>, urls: seq<string>)

  /** `if (obj.stages) stages = [...stages, ...obj.stages]`: what a fragment adds to the stage list. */
  function FragmentStages(frag: Obj): Result<seq<Value>> {
    if Truthy(Get(frag, "stages")) then Iterate(Get(frag, "stages"), "stages") else Ok([])
  }

  /** The URL of a named GitLab CI template. */
  function TemplateUrl(template: Option<Value>): string {
    TemplateBase + ShowOpt(template)
  }

  /** One visit of the include loop (index.js:59-72). */
  function IncludeStep(acc: Acc, item: Value, files: Files): Result<Acc> {
    var local :- Prop(Some(item), "local");
    if Truthy(local) then
      if !local.value.Scalar? then Err(NotAString("local"))  // path.resolve rejects a non-string
      else if local.value.text in files then
        var frag := files[local.value.text];
        var more :- FragmentStages(frag);
        Ok(Acc(Spread(acc.doc, frag), acc.stages + more, acc.urls))
      else Ok(acc)
    else
      var template := Field(item, "template");
      if Truthy(template) then Ok(acc.(urls := acc.urls + [TemplateUrl(template)])) else Ok(acc)
  }

  /** The include loop over the items still to visit. */
  function LocalFold(items: seq<Value>, acc: Acc, files: Files): Result<Acc>
    decreases |items|
  {
    if |items| == 0 then Ok(acc)
    else
      var next :- IncludeStep(acc, items[0], files);
      LocalFold(items[1..], next, files)
  }

  /** `Promise.all(urls.map(fetch))`: every body in URL order, or the failure of a request. */
  function FetchAll(urls: seq<string>, got: seq<Obj>, fetch: Fetcher): Result<seq<Obj>>
    decreases |urls|
  {
    if |urls| == 0 then Ok(got)
    else
      match fetch(urls[0])
      case None => Err(FetchFailed(urls[0]))
      case Some(frag) => FetchAll(urls[1..], got + [frag], fetch)
  }

  /** One fetched fragment folded in (index.js:92-97). */
  function RemoteStep(acc: Acc, frag: Obj): Result<Acc> {
    var more :- FragmentStages(frag);
    Ok(acc.(doc := Spread(acc.doc, frag), stages := acc.stages + more))
  }

  function RemoteFold(frags: seq<Obj>, acc: Acc): Result<Acc>
    decreases |frags|
  {
    if |frags| == 0 then Ok(acc)
    else
      var next :- RemoteStep(acc, frags[0]);
      RemoteFold(frags[1..], next)
  }

  /** The document `parseIncludes` resolves with, or the exception that stops it. */
  function ResolveIncludes(root: Obj, files: Files, fetch: Fetcher): Result<Obj> {
    var stages :- Iterate(Get(root, "stages"), "stages");
    var includes := Get(root, "include");
    if !Truthy(includes) then Ok(root)
    else
      var items :- AsList(includes, "include");
      var acc :- LocalFold(items, Acc(root, stages, []), files);
      FoldRemote(acc, fetch)
  }

  /** After the include loop: fetch the templates, fold them in, and deduplicate the stages. */
  function FoldRemote(acc: Acc, fetch: Fetcher): Result<Obj> {
    if |acc.urls| > 0 then
      var frags :- FetchAll(acc.urls, [], fetch);
      var start := acc.(doc := Put(acc.doc, "stages", Sequence(Seqs.Dedupe(acc.stages))));
      var done :- RemoteFold(frags, start);
      Ok(Put(done.doc, "stages", Sequence(Seqs.Dedupe(done.stages))))
    else
      Ok(Put(acc.doc, "stages", Sequence(Seqs.Dedupe(acc.stages))))
  }

  /** `parseIncludes` as the script runs it: accumulators reassigned item by item. */
  method ParseIncludes(root: Obj, files: Files, fetch: Fetcher) returns (r: Result<Obj>)
    ensures r == ResolveIncludes(root, files, fetch)
  {
    var initial := Iterate(Get(root, "stages"), "stages");
    if initial.Err? {
      return Err(initial.error);
    }
    var stages := initial.value;
    var includes := Get(root, "include");
    if !Truthy(includes) {
      return Ok(root);
    }
    var list := AsList(includes, "include");
    if list.Err? {
      return Err(list.error);
    }
    var items := list.value;
    var doc := root;
    var urls: seq<string> := [];
    var i := 0;
    while i < |items|
      invariant 0 <= i <= |items|
      invariant LocalFold(items, Acc(root, initial.value, []), files)
             == LocalFold(items[i..], Acc(doc, stages, urls), files)
    {
      assert items[i..][1..] == items[i + 1..];
      var item := items[i];
      var local := Prop(Some(item), "local");
      if local.Err? {
        return Err(local.error);
      }
      if Truthy(local.value) {
        if !local.value.value.Scalar? {
          return Err(NotAString("local"));
        }
        var path := local.value.value.text;
        if path in files {
          var frag := files[path];
          doc := Spread(doc, frag);
          var more := FragmentStages(frag);
          if more.Err? {
            return Err(more.error);
          }
          stages := stages + more.value;
        }
      } else {
        var template := Field(item, "template");
        if Truthy(template) {
          urls := urls + [TemplateUrl(template)];
        }
      }
      i := i + 1;
    }
    if |urls| == 0 {
      return Ok(Put(doc, "stages", Sequence(Seqs.Dedupe(stages))));
    }
    // every request is made before any fragment is folded in
    var frags: seq<Obj> := [];
    var j := 0;
    while j < |urls|
      invariant 0 <= j <= |urls|
      invariant FetchAll(urls, [], fetch) == FetchAll(urls[j..], frags, fetch)
    {
      assert urls[j..][1..] == urls[j + 1..];
      var body := fetch(urls[j]);
      if body.None? {
        return Err(FetchFailed(urls[j]));
      }
      frags := frags + [body.value];
      j := j + 1;
    }
    doc := Put(doc, "stages", Sequence(Seqs.Dedupe(stages)));
    ghost var start := Acc(doc, stages, urls);
    var k := 0;
    while k < |frags|
      invariant 0 <= k <= |frags|
      invariant RemoteFold(frags, start) == RemoteFold(frags[k..], Acc(doc, stages, urls))
    {
      assert frags[k..][1..] == frags[k + 1..];
      var m := frags[k];
      var more := FragmentStages(m);
      if more.Err? {
        return Err(more.error);
      }
      stages := stages + more.value;
      doc := Spread(doc, m);
      k := k + 1;
    }
    doc := Put(doc, "stages", Sequence(Seqs.Dedupe(stages)));
    return Ok(doc);
  }

  // ---------------------------------------------------------------------------
  // Reference definitions: what each item and fragment contributes, stated apart
  // from the loop that combines them.

  /** The path a `local` item names, if it is one whose path is a string. */
  function LocalPath(item: Value): Option<string> {
    var local := Field(item, "local");
    if Truthy(local) && local.value.Scalar? then Some(local.value.text) else None
  }

  /** An item that takes the template branch: no usable `local`, a non-empty `template`. */
  predicate IsTemplate(item: Value) {
    !Truthy(Field(item, "local")) && Truthy(Field(item, "template"))
  }

  /** The fragment one item reads: its local file, when that exists. */
  function LocalFragment(item: Value, files: Files): seq<Obj> {
    match LocalPath(item)
    case Some(p) => if p in files then [files[p]] else []
    case None => []
  }

  /** The URL one item adds: its template's, when it is a template item. */
  function TemplateOf(item: Value): seq<string> {
    if IsTemplate(item) then [TemplateUrl(Field(item, "template"))] else []
  }

  /** The fragments of the local items whose file exists, in list order. */
  function LocalFragments(items: seq<Value>, files: Files): seq<Obj> {
    if |items| == 0 then [] else LocalFragment(items[0], files) + LocalFragments(items[1..], files)
  }

  /** The template URLs of the items, in list order. */
  function TemplateUrls(items: seq<Value>): seq<string> {
    if |items| == 0 then [] else TemplateOf(items[0]) + TemplateUrls(items[1..])
  }

  /** The stages one fragment adds, when adding them does not throw. */
  function StagesOf(frag: Obj): seq<Value> {
    match FragmentStages(frag)
    case Ok(s) => s
    case Err(_) => []
  }

  /** The stages of all fragments, concatenated in order. */
  function AllStages(frags: seq<Obj>): seq<Value> {
    if |frags| == 0 then [] else StagesOf(frags[0]) + AllStages(frags[1..])
  }

  /** Every fragment spread over `doc`, one after the other. */
  function SpreadAll(doc: Obj, frags: seq<Obj>): Obj
    decreases |frags|
  {
    if |frags| == 0 then doc else SpreadAll(Spread(doc, frags[0]), frags[1..])
  }

  /** The value of `k` written by the last fragment that has it, or `base` when none does. */
  function LastWrite(base: Option<Value>, frags: seq<Obj>, k: string): Option<Value> {
    if |frags| == 0 then base
    else if k in Keys(frags[|frags| - 1]) then Get(frags[|frags| - 1], k)
    else LastWrite(base, frags[..|frags| - 1], k)
  }

  function IncludeItems(root: Obj): seq<Value> {
    match Get(root, "include")
    case Some(Sequence(items)) => items
    case _ => []
  }

  function RootStages(root: Obj): seq<Value> {
    match Iterate(Get(root, "stages"), "stages")
    case Ok(s) => s
    case Err(_) => []
  }

  /** The bodies fetched for `urls`, when every request succeeds. */
  function FetchedOf(urls: seq<string>, fetch: Fetcher): seq<Obj> {
    match FetchAll(urls, [], fetch)
    case Ok(frags) => frags
    case Err(_) => []
  }

  /** The bodies of the root's template items, when every request succeeds. */
  function Fetched(root: Obj, fetch: Fetcher): seq<Obj> {
    FetchedOf(TemplateUrls(IncludeItems(root)), fetch)
  }

  predicate AllUnique(frags: seq<Obj>) {
    forall i :: 0 <= i < |frags| ==> UniqueKeys(frags[i])
  }

  // ---------------------------------------------------------------------------
  // Small facts about the reference definitions.

  lemma {:induction false} SpreadAllAppend(doc: Obj, a: seq<Obj>, b: seq<Obj>)
    ensures SpreadAll(doc, a + b) == SpreadAll(SpreadAll(doc, a), b)
    decreases |a|
  {
    if |a| == 0 {
      assert a + b == b;
    } else {
      SpreadAllAppend(Spread(doc, a[0]), a[1..], b);
      assert (a + b)[1..] == a[1..] + b;
    }
  }

  lemma {:induction false} AllStagesAppend(a: seq<Obj>, b: seq<Obj>)
    ensures AllStages(a + b) == AllStages(a) + AllStages(b)
    decreases |a|
  {
    if |a| == 0 {
      assert a + b == b;
    } else {
      assert (a + b)[0] == a[0] && (a + b)[1..] == a[1..] + b;
      assert AllStages(a + b) == StagesOf(a[0]) + AllStages(a[1..] + b);
      AllStagesAppend(a[1..], b);
    }
  }

  /** Whether one writer changes `k` does not depend on how the fragments are grouped. */
  lemma {:induction false} LastWriteAppend(base: Option<Value>, a: seq<Obj>, c: seq<Obj>, k: string)
    ensures LastWrite(base, a + c, k) == LastWrite(LastWrite(base, a, k), c, k)
    decreases |c|
  {
    if |c| == 0 {
      assert a + c == a;
    } else {
      LastWriteAppend(base, a, c[..|c| - 1], k);
      assert (a + c)[..|a + c| - 1] == a + c[..|c| - 1];
    }
  }

  /** Spreading fragments one after another is last-write-wins for every key. */
  lemma {:induction false} SpreadAllGet(doc: Obj, frags: seq<Obj>, k: string)
    requires AllUnique(frags)
    ensures Get(SpreadAll(doc, frags), k) == LastWrite(Get(doc, k), frags, k)
    decreases |frags|
  {
    if |frags| > 0 {
      var f := frags[0];
      assert UniqueKeys(f);
      SpreadGet(doc, f, k);
      assert AllUnique(frags[1..]) by {
        forall i | 0 <= i < |frags[1..]| ensures UniqueKeys(frags[1..][i]) {
          assert frags[1..][i] == frags[i + 1];
        }
      }
      SpreadAllGet(Spread(doc, f), frags[1..], k);
      LastWriteAppend(Get(doc, k), [f], frags[1..], k);
      assert [f][..0] == [];
      assert [f] + frags[1..] == frags;
    }
  }

  /** Spreading fragments keeps the document's own keys first, in their order. */
  lemma {:induction false} SpreadAllKeys(doc: Obj, frags: seq<Obj>)
    ensures Keys(doc) <= Keys(SpreadAll(doc, frags))
    decreases |frags|
  {
    if |frags| > 0 {
      SpreadKeysPrefix(doc, frags[0]);
      SpreadAllKeys(Spread(doc, frags[0]), frags[1..]);
      var a, b, c := Keys(doc), Keys(Spread(doc, frags[0])), Keys(SpreadAll(doc, frags));
      assert a == b[..|a|] == c[..|a|];
    }
  }

  // ---------------------------------------------------------------------------
  // The loops against the reference definitions.

  /** One visit of the include loop spreads the item's fragment and adds the item's URL. */
  lemma IncludeStepFacts(acc: Acc, item: Value, files: Files)
    requires IncludeStep(acc, item, files).Ok?
    ensures IncludeStep(acc, item, files).value
         == Acc(SpreadAll(acc.doc, LocalFragment(item, files)),
                acc.stages + AllStages(LocalFragment(item, files)),
                acc.urls + TemplateOf(item))
  {
    var frag := LocalFragment(item, files);
    if |frag| == 1 {
      assert AllStages(frag) == StagesOf(frag[0]) + AllStages([]);
    } else {
      assert acc.stages + [] == acc.stages;
    }
    if !IsTemplate(item) {
      assert acc.urls + [] == acc.urls;
    }
  }

  /** Two consecutive stretches of the include loop compose. */
  lemma ComposeStretches(acc: Acc, next: Acc, out: Acc, head: seq<Obj>, rest: seq<Obj>, u1: seq<string>, u2: seq<string>)
    requires next.doc == SpreadAll(acc.doc, head) && out.doc == SpreadAll(next.doc, rest)
    requires next.stages == acc.stages + AllStages(head) && out.stages == next.stages + AllStages(rest)
    requires next.urls == acc.urls + u1 && out.urls == next.urls + u2
    ensures out.doc == SpreadAll(acc.doc, head + rest)
    ensures out.stages == acc.stages + AllStages(head + rest)
    ensures out.urls == acc.urls + (u1 + u2)
  {
    SpreadAllAppend(acc.doc, head, rest);
    AllStagesAppend(head, rest);
    Seqs.AppendAssoc(acc.stages, AllStages(head), AllStages(rest));
    Seqs.AppendAssoc(acc.urls, u1, u2);
  }

  /** The include loop spreads exactly the existing local fragments and collects exactly the template URLs. */
  lemma {:induction false} LocalFoldFacts(items: seq<Value>, acc: Acc, files: Files)
    requires LocalFold(items, acc, files).Ok?
    ensures LocalFold(items, acc, files).value
         == Acc(SpreadAll(acc.doc, LocalFragments(items, files)),
                acc.stages + AllStages(LocalFragments(items, files)),
                acc.urls + TemplateUrls(items))
    decreases |items|
  {
    if |items| == 0 {
      assert acc.stages + [] == acc.stages && acc.urls + [] == acc.urls;
    } else {
      var next := IncludeStep(acc, items[0], files).value;
      assert LocalFold(items, acc, files) == LocalFold(items[1..], next, files);
      IncludeStepFacts(acc, items[0], files);
      LocalFoldFacts(items[1..], next, files);
      var head, rest := LocalFragment(items[0], files), LocalFragments(items[1..], files);
      assert LocalFragments(items, files) == head + rest;
      assert TemplateUrls(items) == TemplateOf(items[0]) + TemplateUrls(items[1..]);
      ComposeStretches(acc, next, LocalFold(items, acc, files).value, head, rest,
                       TemplateOf(items[0]), TemplateUrls(items[1..]));
    }
  }

  /** Folding in the fetched fragments spreads each of them and appends their stages. */
  lemma {:induction false} RemoteFoldFacts(frags: seq<Obj>, acc: Acc)
    requires RemoteFold(frags, acc).Ok?
    ensures RemoteFold(frags, acc).value.doc == SpreadAll(acc.doc, frags)
    ensures RemoteFold(frags, acc).value.stages == acc.stages + AllStages(frags)
    ensures RemoteFold(frags, acc).value.urls == acc.urls
    decreases |frags|
  {
    if |frags| == 0 {
      assert acc.stages + [] == acc.stages;
    } else {
      var more := FragmentStages(frags[0]).value;
      var next := acc.(doc := Spread(acc.doc, frags[0]), stages := acc.stages + more);
      assert RemoteStep(acc, frags[0]) == Ok(next);
      assert RemoteFold(frags, acc) == RemoteFold(frags[1..], next);
      assert StagesOf(frags[0]) == more;
      assert AllStages(frags) == more + AllStages(frags[1..]);
      assert SpreadAll(acc.doc, frags) == SpreadAll(next.doc, frags[1..]);
      RemoteFoldFacts(frags[1..], next);
      Seqs.AppendAssoc(acc.stages, more, AllStages(frags[1..]));
    }
  }

  /** `Promise.all` fails as soon as one request fails, and otherwise yields every body in URL order. */
  lemma {:induction false} FetchAllFacts(urls: seq<string>, got: seq<Obj>, fetch: Fetcher)
    ensures FetchAll(urls, got, fetch).Ok? <==> forall k :: 0 <= k < |urls| ==> fetch(urls[k]).Some?
    ensures FetchAll(urls, got, fetch).Ok? ==>
              var all := FetchAll(urls, got, fetch).value;
              && |all| == |got| + |urls| && all[..|got|] == got
              && forall k :: 0 <= k < |urls| ==> fetch(urls[k]) == Some(all[|got| + k])
    decreases |urls|
  {
    if |urls| > 0 && fetch(urls[0]).Some? {
      var got' := got + [fetch(urls[0]).value];
      FetchAllFacts(urls[1..], got', fetch);
      assert (forall k :: 0 <= k < |urls| ==> fetch(urls[k]).Some?)
         <==> (forall k :: 0 <= k < |urls[1..]| ==> fetch(urls[1..][k]).Some?) by {
        forall k | 0 < k < |urls| ensures urls[k] == urls[1..][k - 1] { }
      }
      if FetchAll(urls, got, fetch).Ok? {
        var all := FetchAll(urls, got, fetch).value;
        assert all[..|got'|][..|got|] == all[..|got|];
        forall k | 0 <= k < |urls| ensures fetch(urls[k]) == Some(all[|got| + k]) {
          if k > 0 {
            assert urls[1..][k - 1] == urls[k];
          }
        }
      }
    }
  }

  /** After the include loop, every key but `stages` is last-write-wins over the fetched templates. */
  lemma FoldRemoteField(acc: Acc, fetch: Fetcher, k: string)
    requires FoldRemote(acc, fetch).Ok?
    requires AllUnique(FetchedOf(acc.urls, fetch))
    requires k != "stages"
    ensures Get(FoldRemote(acc, fetch).value, k) == LastWrite(Get(acc.doc, k), FetchedOf(acc.urls, fetch), k)
  {
    if |acc.urls| > 0 {
      var frags := FetchAll(acc.urls, [], fetch).value;
      var start := acc.(doc := Put(acc.doc, "stages", Sequence(Seqs.Dedupe(acc.stages))));
      RemoteFoldFacts(frags, start);
      SpreadAllGet(start.doc, frags, k);
    }
  }

  // ---------------------------------------------------------------------------
  // What `parseIncludes` promises.

  /** The include loop's result, stated with the reference definitions. */
  lemma ResolvedLoop(root: Obj, files: Files, fetch: Fetcher)
    requires Truthy(Get(root, "include"))
    requires ResolveIncludes(root, files, fetch).Ok?
    ensures var items := IncludeItems(root);
            var locals := LocalFragments(items, files);
            var acc := LocalFold(items, Acc(root, RootStages(root), []), files);
            && acc.Ok?
            && acc.value == Acc(SpreadAll(root, locals), RootStages(root) + AllStages(locals), TemplateUrls(items))
            && ResolveIncludes(root, files, fetch) == FoldRemote(acc.value, fetch)
  {
    var items := IncludeItems(root);
    var acc0 := Acc(root, RootStages(root), []);
    LocalFoldFacts(items, acc0, files);
    assert [] + TemplateUrls(items) == TemplateUrls(items);
  }

  /**
   * The resolved `stages` are the root's stages, then those of each existing local
   * fragment in list order, then those of each template in list order, with every
   * repeat after the first occurrence dropped.
   */
  lemma ResolvedStages(root: Obj, files: Files, fetch: Fetcher)
    requires Truthy(Get(root, "include"))
    requires ResolveIncludes(root, files, fetch).Ok?
    ensures Get(ResolveIncludes(root, files, fetch).value, "stages")
         == Some(Sequence(Seqs.Dedupe(RootStages(root)
                                      + AllStages(LocalFragments(IncludeItems(root), files))
                                      + AllStages(Fetched(root, fetch)))))
  {
    ResolvedLoop(root, files, fetch);
    var items := IncludeItems(root);
    var acc := LocalFold(items, Acc(root, RootStages(root), []), files).value;
    FoldRemoteStages(acc, fetch);
  }

  /** After the include loop, `stages` is the deduplicated concatenation including the fetched templates' stages. */
  lemma FoldRemoteStages(acc: Acc, fetch: Fetcher)
    requires FoldRemote(acc, fetch).Ok?
    ensures Get(FoldRemote(acc, fetch).value, "stages")
         == Some(Sequence(Seqs.Dedupe(acc.stages + AllStages(FetchedOf(acc.urls, fetch)))))
  {
    if |acc.urls| > 0 {
      var frags := FetchAll(acc.urls, [], fetch).value;
      var start := acc.(doc := Put(acc.doc, "stages", Sequence(Seqs.Dedupe(acc.stages))));
      RemoteFoldFacts(frags, start);
    } else {
      assert acc.stages + [] == acc.stages;
    }
  }

  /**
   * Every other top-level key is last-write-wins over the root, the existing local
   * fragments and then the fetched templates: a later fragment replaces the whole
   * value, `variables` included.
   */
  lemma ResolvedFields(root: Obj, files: Files, fetch: Fetcher, k: string)
    requires Truthy(Get(root, "include"))
    requires ResolveIncludes(root, files, fetch).Ok?
    requires k != "stages"
    requires AllUnique(LocalFragments(IncludeItems(root), files) + Fetched(root, fetch))
    ensures Get(ResolveIncludes(root, files, fetch).value, k)
         == LastWrite(Get(root, k), LocalFragments(IncludeItems(root), files) + Fetched(root, fetch), k)
  {
    ResolvedLoop(root, files, fetch);
    var items := IncludeItems(root);
    var locals := LocalFragments(items, files);
    var fetched := Fetched(root, fetch);
    var acc := LocalFold(items, Acc(root, RootStages(root), []), files).value;
    assert acc.doc == SpreadAll(root, locals) && FetchedOf(acc.urls, fetch) == fetched;
    AllUniqueAppend(locals, fetched);
    SpreadAllGet(root, locals, k);
    FoldRemoteField(acc, fetch, k);
    LastWriteAppend(Get(root, k), locals, fetched, k);
  }

  lemma AllUniqueAppend(a: seq<Obj>, b: seq<Obj>)
    requires AllUnique(a + b)
    ensures AllUnique(a) && AllUnique(b)
  {
    forall i | 0 <= i < |a| ensures UniqueKeys(a[i]) {
      assert (a + b)[i] == a[i];
    }
    forall i | 0 <= i < |b| ensures UniqueKeys(b[i]) {
      assert (a + b)[|a| + i] == b[i];
    }
  }

  /** The root's own keys keep their positions, and so their `Object.keys` indices. */
  lemma ResolvedKeyOrder(root: Obj, files: Files, fetch: Fetcher)
    requires Truthy(Get(root, "include"))
    requires ResolveIncludes(root, files, fetch).Ok?
    ensures Keys(root) <= Keys(ResolveIncludes(root, files, fetch).value)
  {
    ResolvedLoop(root, files, fetch);
    var items := IncludeItems(root);
    var acc := LocalFold(items, Acc(root, RootStages(root), []), files).value;
    SpreadAllKeys(root, LocalFragments(items, files));
    assert Keys(root) <= Keys(acc.doc);
    KeysPrefixHas(root, acc.doc, "stages");
    FoldRemoteKeys(acc, fetch);
    PrefixTrans(Keys(root), Keys(acc.doc), Keys(FoldRemote(acc, fetch).value));
  }

  lemma KeysPrefixHas(a: Obj, b: Obj, k: string)
    requires Keys(a) <= Keys(b) && Get(a, k).Some?
    ensures k in Keys(b)
  {
    var i :| 0 <= i < |a| && Keys(a)[i] == k;
    assert Keys(b)[i] == k;
  }

  lemma PrefixTrans<T>(a: seq<T>, b: seq<T>, c: seq<T>)
    requires a <= b && b <= c
    ensures a <= c
  {
    assert a == b[..|a|] == c[..|a|];
  }

  /** The steps after the include loop keep the document's keys in place. */
  lemma FoldRemoteKeys(acc: Acc, fetch: Fetcher)
    requires FoldRemote(acc, fetch).Ok?
    requires "stages" in Keys(acc.doc)
    ensures Keys(acc.doc) <= Keys(FoldRemote(acc, fetch).value)
  {
    var newStages := Sequence(Seqs.Dedupe(acc.stages));
    PutKeys(acc.doc, "stages", newStages);
    if |acc.urls| > 0 {
      var frags := FetchAll(acc.urls, [], fetch).value;
      var start := acc.(doc := Put(acc.doc, "stages", newStages));
      var done := RemoteFold(frags, start).value;
      RemoteFoldFacts(frags, start);
      SpreadAllKeys(start.doc, frags);
      PrefixTrans(Keys(acc.doc), Keys(start.doc), Keys(done.doc));
      assert "stages" in Keys(done.doc);
      PutKeys(done.doc, "stages", Sequence(Seqs.Dedupe(done.stages)));
    }
  }

  /** A resolved document means every template request succeeded: there is no partial merge. */
  lemma ResolvedFetchedAll(root: Obj, files: Files, fetch: Fetcher)
    requires Truthy(Get(root, "include"))
    requires ResolveIncludes(root, files, fetch).Ok?
    ensures forall k :: 0 <= k < |TemplateUrls(IncludeItems(root))| ==> fetch(TemplateUrls(IncludeItems(root))[k]).Some?
  {
    ResolvedLoop(root, files, fetch);
    FetchAllFacts(TemplateUrls(IncludeItems(root)), [], fetch);
  }

  /** A root without a usable `stages` list makes `parseIncludes` throw. */
  lemma MissingStagesThrows(root: Obj, files: Files, fetch: Fetcher)
    requires Get(root, "stages").None? || Get(root, "stages").value.Mapping? || Get(root, "stages").value.Null?
    ensures ResolveIncludes(root, files, fetch).Err?
  {
  }
}

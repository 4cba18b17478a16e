/**
 * The evidence normaliser that every search route and search helper applies to
 * the raw result list of the web-search service. The seven copies in the source
 * differ only in the id prefix, the type tag, the default title and whether a
 * snippet is produced; here they are one function over a `Profile`.
 */
module Evidence {
  import opened Wrappers
  import opened JsText

  /** The `text` field of a raw result: `typeof r.text === "string"` tells these apart. */
  datatype TextField = TextString(s: string) | NonString

  /** One raw search result; `None` is a field that is `null` or `undefined`. */
  datatype RawResult = RawResult(
    id: Option<string>,
    title: Option<string>,
    source: Option<string>,
    url: Option<string>,
    link: Option<string>,
    snippet: Option<string>,
    summary: Option<string>,
    text: Option<TextField>)

  /** The interviewer helper's records carry no `snippet` key at all; the others carry one that may be `null`. */
  datatype SnippetField = Omitted | Snippet(value: Option<string>)

  datatype Evidence = Evidence(
    id: string,
    kind: string,
    title: string,
    url: Option<string>,
    snippet: SnippetField,
    raw: RawResult)

  /** What distinguishes one copy of the normaliser from another. `idPrefix` includes the dash. */
  datatype Profile = Profile(idPrefix: string, kind: string, defaultTitle: string, withSnippet: bool)

  /** The profile of the company and interviewer routes: records typed "source", with ids `source-<i>` and the title "Source" by default. */
  const SourceProfile := Profile("source-", "source", "Source", true)

  /** The longest snippet cut from a result's `text`. */
  const SnippetLimit: nat := 280

  /** `${prefix}${i}`: the id of a result that has none. */
  function FallbackId(p: Profile, i: nat): string {
    p.idPrefix + NatToString(i)
  }

  /** `typeof r.text === "string" ? r.text.slice(0, 280) : null` */
  function TextExcerpt(t: Option<TextField>): Option<string> {
    match t
    case Some(TextString(s)) => Some(Take(s, SnippetLimit))
    case _ => None
  }

  /** `r.snippet ?? r.summary ?? <text excerpt>` */
  function SnippetOf(r: RawResult): Option<string> {
    r.snippet.OrElse(r.summary).OrElse(TextExcerpt(r.text))
  }

  /** The record built for the `i`-th raw result. */
  function ToEvidence(p: Profile, r: RawResult, i: nat): Evidence {
    Evidence(
      id := r.id.GetOr(FallbackId(p, i)),
      kind := p.kind,
      title := r.title.OrElse(r.source).GetOr(p.defaultTitle),
      url := r.url.OrElse(r.link),
      snippet := if p.withSnippet then Snippet(SnippetOf(r)) else Omitted,
      raw := r)
  }

  /** `(res?.results ?? []).map((r, i) => ...)` */
  function Normalize(p: Profile, results: Option<seq<RawResult>>): (ev: seq<Evidence>)
    ensures results.None? ==> ev == []
    ensures results.Some? ==> |ev| == |results.value|
  {
    var rs := results.GetOr([]);
    seq(|rs|, i requires 0 <= i < |rs| => ToEvidence(p, rs[i], i))
  }

  /** The raw results kept in the records, in order. */
  function Raws(ev: seq<Evidence>): (rs: seq<RawResult>)
    ensures |rs| == |ev|
  {
    if ev == [] then [] else [ev[0].raw] + Raws(ev[1..])
  }

  /** Nothing is lost, added or reordered: the records give back the raw list they were made from. */
  lemma {:induction false} NormalizeKeepsRaws(p: Profile, rs: seq<RawResult>)
    ensures Raws(Normalize(p, Some(rs))) == rs
  {
    var ev := Normalize(p, Some(rs));
    RawsAt(ev);
  }

  lemma {:induction false} RawsAt(ev: seq<Evidence>)
    ensures forall i :: 0 <= i < |ev| ==> Raws(ev)[i] == ev[i].raw
  {
    if ev != [] {
      RawsAt(ev[1..]);
      assert forall i :: 1 <= i < |ev| ==> ev[1..][i - 1] == ev[i];
    }
  }

  /** Each field of the `i`-th record, case by case: only an absent field falls through, so "" is kept. */
  lemma NormalizedFields(p: Profile, rs: seq<RawResult>, i: nat)
    requires i < |rs|
    ensures var e := Normalize(p, Some(rs))[i]; var r := rs[i];
      && e.id == (if r.id.Some? then r.id.value else p.idPrefix + NatToString(i))
      && e.kind == p.kind
      && e.title == (if r.title.Some? then r.title.value
                     else if r.source.Some? then r.source.value
                     else p.defaultTitle)
      && e.url == (if r.url.Some? then r.url else r.link)
      && e.snippet == (if !p.withSnippet then Omitted
                       else if r.snippet.Some? then Snippet(r.snippet)
                       else if r.summary.Some? then Snippet(r.summary)
                       else if r.text.Some? && r.text.value.TextString?
                       then Snippet(Some(Take(r.text.value.s, 280)))
                       else Snippet(None))
      && e.raw == r
  {
  }

  /** A snippet cut from `text` is a prefix of it of at most 280 characters. */
  lemma ExcerptIsBoundedPrefix(p: Profile, rs: seq<RawResult>, i: nat)
    requires i < |rs| && p.withSnippet
    requires rs[i].snippet.None? && rs[i].summary.None?
    ensures var e := Normalize(p, Some(rs))[i];
      e.snippet.value.Some? <==> rs[i].text.Some? && rs[i].text.value.TextString?
    ensures var e := Normalize(p, Some(rs))[i];
      e.snippet.value.Some? ==>
        |e.snippet.value.value| <= SnippetLimit && e.snippet.value.value <= rs[i].text.value.s
  {
  }

  /** A fallback id names its position: the index reads back from the digits after the prefix. */
  lemma FallbackIdNamesIndex(p: Profile, i: nat)
    ensures var id := FallbackId(p, i);
      && |p.idPrefix| < |id| && id[..|p.idPrefix|] == p.idPrefix
      && (forall k :: |p.idPrefix| <= k < |id| ==> IsDigit(id[k]))
      && ParseDecimal(id[|p.idPrefix|..]) == i
  {
    var id := FallbackId(p, i);
    assert id[|p.idPrefix|..] == NatToString(i);
    ParseNatToString(i);
  }

  /** When no raw result brings its own id, the records' ids are pairwise distinct. */
  lemma FallbackIdsDistinct(p: Profile, rs: seq<RawResult>)
    requires forall k :: 0 <= k < |rs| ==> rs[k].id.None?
    ensures var ev := Normalize(p, Some(rs));
      forall i, j :: 0 <= i < j < |ev| ==> ev[i].id != ev[j].id
  {
    var ev := Normalize(p, Some(rs));
    forall i, j | 0 <= i < j < |ev| ensures ev[i].id != ev[j].id {
      NatToStringInjective(i, j);
      var a, b := FallbackId(p, i), FallbackId(p, j);
      assert a[|p.idPrefix|..] == NatToString(i);
      assert b[|p.idPrefix|..] == NatToString(j);
    }
  }

  /**
   * Ids are not unique once results bring their own: a first result whose id is
   * the fallback id of position 1, followed by a result without an id, gives two
   * records with the same id.
   */
  lemma BroughtIdCanCollide(p: Profile, r: RawResult)
    requires r.id.None?
    ensures var ev := Normalize(p, Some([r.(id := Some(FallbackId(p, 1))), r]));
      |ev| == 2 && ev[0].id == ev[1].id == p.idPrefix + "1"
  {
    assert NatToString(1) == "1";
  }
}

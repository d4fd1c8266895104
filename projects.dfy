/** The record projection of update_projects.js: every page of the Notion
    query result becomes one flat project record. Properties are read with
    JavaScript's `||`, which treats an empty string like a missing value;
    reading a property of a missing property throws a TypeError, which
    abandons the whole `map`. */
module Projects {
  import opened Wrappers

  const DefaultTitle: string := "제목 없음"
  const DefaultDescription: string := "설명이 없습니다."
  const DefaultDate: string := ""
  const DefaultGithub: string := "#"
  const DefaultImage: string := "images/default.jpg"

  /** A rich-text or title fragment; `plain_text` may be absent. */
  datatype Fragment = Fragment(plainText: Option<string>)

  /** A multi-select option. */
  datatype Tag = Tag(name: string)

  /** The `Date` property: its `rich_text` array and its `date` value may
      each be absent (they are read with `?.`). */
  datatype DateProperty = DateProperty(richText: Option<seq<Fragment>>, date: Option<DateValue>)

  datatype DateValue = DateValue(start: Option<string>)

  /** A file object of a cover (`external` or `file`). */
  datatype FileRef = FileRef(url: string)

  /** `page.cover`: its `type` and the two file objects that may be present. */
  datatype Cover = Cover(kind: string, external: Option<FileRef>, file: Option<FileRef>)

  /** A page of the query result. Each property is `None` when the page
      lacks it; `github` holds the `Github` property's `url`, itself
      possibly null. */
  datatype NotionPage = NotionPage(
    id: string,
    name: Option<seq<Fragment>>,
    tags: Option<seq<Tag>>,
    description: Option<seq<Fragment>>,
    date: Option<DateProperty>,
    github: Option<Option<string>>,
    cover: Option<Cover>)

  /** The record written to projects.json: exactly these seven fields. */
  datatype Project = Project(
    id: string, title: string, tags: seq<string>, description: string,
    date: string, github: string, image: string)

  /** The TypeError that abandons the mapping: the named property (or cover
      file object) was read from `undefined`. */
  datatype MapError = MissingProperty(property: string) | MissingCoverFile(kind: string)

  /** `a || b` for a possibly absent string: the empty string falls through
      like an absent one, so a non-empty fallback gives a non-empty result,
      and the result is either the fallback or a non-empty present value. */
  function OrElse(a: Option<string>, b: string): (r: string)
    ensures b != "" ==> r != ""
    ensures r == b || (a.Some? && r == a.value && r != "")
  {
    if a.Some? && a.value != "" then a.value else b
  }

  /** `xs[0]?.plain_text`. */
  function FirstText(xs: seq<Fragment>): Option<string> {
    if |xs| == 0 then None else xs[0].plainText
  }

  /** The date chain: the first rich-text fragment's text, else the date
      value's start, else the empty string. */
  function DateOf(d: DateProperty): string {
    var fromText := if d.richText.Some? then FirstText(d.richText.value) else None;
    var fromDate := if d.date.Some? then d.date.value.start else None;
    OrElse(fromText, OrElse(fromDate, DefaultDate))
  }

  /** The tag names in their original order. */
  function TagNames(ts: seq<Tag>): (r: seq<string>)
    ensures |r| == |ts|
    ensures forall i :: 0 <= i < |ts| ==> r[i] == ts[i].name
    decreases |ts|
  {
    if ts == [] then [] else [ts[0].name] + TagNames(ts[1..])
  }

  /** `let image = "images/default.jpg"; if (page.cover) image = ...`: the
      external URL for an `external` cover, the file URL otherwise. */
  function ImageOf(cover: Option<Cover>): Result<string, MapError> {
    match cover
    case None => Ok(DefaultImage)
    case Some(c) =>
      if c.kind == "external" then
        (if c.external.Some? then Ok(c.external.value.url) else Err(MissingCoverFile(c.kind)))
      else
        (if c.file.Some? then Ok(c.file.value.url) else Err(MissingCoverFile(c.kind)))
  }

  /** The body of the `results.map` lambda. Properties are read in the
      source's order (Name, Tags, Description, Date, Github, cover), so the
      error is the first missing one. */
  function ToProject(p: NotionPage): Result<Project, MapError> {
    if p.name.None? then Err(MissingProperty("Name"))
    else if p.tags.None? then Err(MissingProperty("Tags"))
    else if p.description.None? then Err(MissingProperty("Description"))
    else if p.date.None? then Err(MissingProperty("Date"))
    else if p.github.None? then Err(MissingProperty("Github"))
    else
      match ImageOf(p.cover)
      case Err(e) => Err(e)
      case Ok(image) =>
        Ok(Project(
          p.id,
          OrElse(FirstText(p.name.value), DefaultTitle),
          TagNames(p.tags.value),
          OrElse(FirstText(p.description.value), DefaultDescription),
          DateOf(p.date.value),
          OrElse(p.github.value, DefaultGithub),
          image))
  }

  /** The page has every property the lambda reads and, when it has a
      cover, the file object its type selects. */
  predicate WellFormed(p: NotionPage) {
    p.name.Some? && p.tags.Some? && p.description.Some? && p.date.Some? && p.github.Some? &&
    (p.cover.Some? ==>
       (if p.cover.value.kind == "external" then p.cover.value.external.Some? else p.cover.value.file.Some?))
  }

  /** `response.results.map(...)`: one record per page, in order, or the
      error of the first page that throws. */
  function ProjectsOf(results: seq<NotionPage>): (r: Result<seq<Project>, MapError>)
    ensures r.Ok? <==> forall i :: 0 <= i < |results| ==> WellFormed(results[i])
    ensures r.Ok? ==> |r.value| == |results|
    ensures r.Ok? ==> forall i :: 0 <= i < |results| ==> ToProject(results[i]) == Ok(r.value[i])
    ensures r.Err? ==> exists i :: FirstFailure(results, i, r.error)
    decreases |results|
  {
    if results == [] then Ok([])
    else
      WellFormedIffOk(results[0]);
      match ToProject(results[0])
      case Err(e) =>
        assert FirstFailure(results, 0, e);
        Err(e)
      case Ok(first) =>
        match ProjectsOf(results[1..])
        case Err(e) =>
          FirstFailureAfterHead(results, e);
          Err(e)
        case Ok(rest) =>
          ProjectedAfterHead(results, first, rest);
          Ok([first] + rest)
  }

  /** The head's record followed by the tail's records projects the whole
      sequence, page by page. */
  lemma ProjectedAfterHead(results: seq<NotionPage>, first: Project, rest: seq<Project>)
    requires |results| > 0 && ToProject(results[0]) == Ok(first)
    requires |rest| == |results| - 1
    requires forall i :: 0 <= i < |rest| ==> ToProject(results[1..][i]) == Ok(rest[i])
    ensures forall i :: 0 <= i < |results| ==> ToProject(results[i]) == Ok(([first] + rest)[i])
  {
    forall i | 0 <= i < |results|
      ensures ToProject(results[i]) == Ok(([first] + rest)[i])
    {
      if i > 0 {
        assert results[i] == results[1..][i - 1];
      }
    }
  }

  /** Page `i` is the first page of `results` that fails, and it fails
      with `e`. */
  ghost predicate FirstFailure(results: seq<NotionPage>, i: int, e: MapError) {
    0 <= i < |results| && ToProject(results[i]) == Err(e) &&
    forall j :: 0 <= j < i ==> WellFormed(results[j])
  }

  /** When the head of the pages is well-formed, the first failure of the
      tail is the first failure of the whole sequence, one index later. */
  lemma FirstFailureAfterHead(results: seq<NotionPage>, e: MapError)
    requires |results| > 0 && WellFormed(results[0])
    requires exists i :: FirstFailure(results[1..], i, e)
    ensures exists i :: FirstFailure(results, i, e)
  {
    var i :| FirstFailure(results[1..], i, e);
    assert results[i + 1] == results[1..][i];
    assert forall j :: 1 <= j < i + 1 ==> results[j] == results[1..][j - 1];
    assert FirstFailure(results, i + 1, e);
  }

  /** The lambda throws exactly when a property it reads is missing. */
  lemma WellFormedIffOk(p: NotionPage)
    ensures ToProject(p).Ok? <==> WellFormed(p)
  {
  }

  /** The record keeps the page's id and takes the tag names in order, one
      per multi-select option. */
  lemma ProjectIdAndTags(p: NotionPage)
    requires ToProject(p).Ok?
    ensures ToProject(p).value.id == p.id
    ensures |ToProject(p).value.tags| == |p.tags.value|
    ensures forall i :: 0 <= i < |p.tags.value| ==> ToProject(p).value.tags[i] == p.tags.value[i].name
  {
  }

  /** The title is the first title fragment's text when that is present and
      non-empty, the default otherwise, and so never empty. The
      description is resolved the same way with its own default. */
  lemma TitleAndDescription(p: NotionPage)
    requires ToProject(p).Ok?
    ensures var r := ToProject(p).value;
      var title := FirstText(p.name.value);
      var desc := FirstText(p.description.value);
      r.title != "" && r.description != "" &&
      (title.Some? && title.value != "" ==> r.title == title.value) &&
      (title.None? || title.value == "" ==> r.title == DefaultTitle) &&
      (desc.Some? && desc.value != "" ==> r.description == desc.value) &&
      (desc.None? || desc.value == "" ==> r.description == DefaultDescription)
  {
  }

  /** The date is the first rich-text fragment's non-empty text; failing
      that, the non-empty start of the date value; failing that, "". */
  lemma DateChain(d: DateProperty)
    ensures var text := if d.richText.Some? && |d.richText.value| > 0 then d.richText.value[0].plainText else None;
      var start := if d.date.Some? then d.date.value.start else None;
      (text.Some? && text.value != "" ==> DateOf(d) == text.value) &&
      (!(text.Some? && text.value != "") && start.Some? && start.value != "" ==> DateOf(d) == start.value) &&
      (!(text.Some? && text.value != "") && !(start.Some? && start.value != "") ==> DateOf(d) == "")
  {
  }

  /** The GitHub link is the property's URL, or "#" when it is null or
      empty; it is never empty. */
  lemma GithubLink(p: NotionPage)
    requires ToProject(p).Ok?
    ensures var g := ToProject(p).value.github;
      var url := p.github.value;
      g != "" &&
      (url.Some? && url.value != "" ==> g == url.value) &&
      (url.None? || url.value == "" ==> g == DefaultGithub)
  {
  }

  /** The image: the default without a cover, else the URL of the file
      object the cover's type selects. */
  lemma ImageChoice(p: NotionPage)
    requires ToProject(p).Ok?
    ensures var img := ToProject(p).value.image;
      (p.cover.None? ==> img == DefaultImage) &&
      (p.cover.Some? && p.cover.value.kind == "external" ==> img == p.cover.value.external.value.url) &&
      (p.cover.Some? && p.cover.value.kind != "external" ==> img == p.cover.value.file.value.url)
  {
  }

  /** The output has one record per page, in order, each keeping its
      page's id. */
  lemma ProjectsKeepIds(results: seq<NotionPage>)
    requires ProjectsOf(results).Ok?
    ensures |ProjectsOf(results).value| == |results|
    ensures forall i :: 0 <= i < |results| ==> ProjectsOf(results).value[i].id == results[i].id
  {
    var ps := ProjectsOf(results).value;
    forall i | 0 <= i < |results| ensures ps[i].id == results[i].id {
      ProjectIdAndTags(results[i]);
    }
  }
}

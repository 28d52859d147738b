/**
 The creation form: its draft of five text fields, the change handler that
 replaces one field, the payload posted to the server (with the category
 string split on commas, each tag trimmed and upper-cased), the outcome of
 the request, and the success handler that clears the draft.
 */
module CreateBlogForm {
  import opened JsString

  /** The five named inputs of the form. */
  datatype Field = Title | Category | Description | CoverImage | Content

  /** The form's draft: one text per input. */
  datatype Draft = Draft(
    title: String,
    category: String,
    description: String,
    coverImage: String,
    content: String)

  /** The body of the create request. */
  datatype Payload = Payload(
    title: String,
    category: seq<String>,
    description: String,
    coverImage: String,
    content: String,
    date: String)

  /** What the request came back with: an HTTP response, ok or not, or a
      failure of `fetch` itself carrying its own message. */
  datatype Reply = HttpReply(ok: bool) | NetworkError(message: String)

  datatype CreateResult = Created(sent: Payload) | Failed(message: String)

  /** What the form asks of the rest of the application after a success. */
  datatype Effect = InvalidateQueries(queryKey: seq<String>) | NotifyParent

  /** Text of a draft field. */
  function Get(d: Draft, f: Field): String {
    match f
    case Title => d.title
    case Category => d.category
    case Description => d.description
    case CoverImage => d.coverImage
    case Content => d.content
  }

  /** The draft after a change event on input `f`: that field holds `v`,
      every other field is what it was. */
  function With(d: Draft, f: Field, v: String): (r: Draft)
    ensures Get(r, f) == v
    ensures forall g :: g != f ==> Get(r, g) == Get(d, g)
  {
    match f
    case Title => d.(title := v)
    case Category => d.(category := v)
    case Description => d.(description := v)
    case CoverImage => d.(coverImage := v)
    case Content => d.(content := v)
  }

  /** The draft the form starts with, and returns to after a success. */
  function InitialDraft(): (d: Draft)
    ensures forall f :: Get(d, f) == []
  {
    Draft([], [], [], [], [])
  }

  /** The browser's `required` check on the five inputs: the form is only
      submitted when none of them is empty. */
  predicate AllFilled(d: Draft) {
    forall f :: Get(d, f) != []
  }

  // ---------------------------------------------------------------------
  // Category normalisation and the payload

  /** What a normalised tag looks like: no surrounding whitespace, no
      lower-case letter, no comma. */
  predicate IsTag(tag: String) {
    IsTrimmed(tag) && IsUpper(tag) && ',' !in tag
  }

  /** The `category` of the payload: the input split on `,`, and every
      segment, empty ones included, trimmed then upper-cased in place. */
  function NormaliseCategories(category: String): (tags: seq<String>)
    ensures |tags| == Count(category, ',') + 1
  {
    var parts := Split(category, ',');
    seq(|parts|, i requires 0 <= i < |parts| => ToUpperCase(Trim(parts[i])))
  }

  /** A segment free of commas normalises to a tag. */
  lemma NormalisedSegmentIsTag(segment: String)
    requires ',' !in segment
    ensures IsTag(ToUpperCase(Trim(segment)))
  {
    var t := Trim(segment);
    TrimKeeps(segment, ',');
    ToUpperCaseIsUpper(t);
    ToUpperCaseKeepsTrimmed(t);
  }

  /** Every entry of the normalised list is a tag. */
  lemma NormaliseCategoriesAreTags(category: String)
    ensures forall i :: 0 <= i < |NormaliseCategories(category)| ==> IsTag(NormaliseCategories(category)[i])
  {
    var parts := Split(category, ',');
    SplitNoSeparator(category, ',');
    forall i | 0 <= i < |parts| ensures IsTag(NormaliseCategories(category)[i]) {
      NormalisedSegmentIsTag(parts[i]);
    }
  }

  /** Tag `i` is the `i`-th segment between commas, trimmed and upper-cased:
      the segments are exactly the pieces that join back into the input. */
  lemma NormaliseCategoriesSegments(category: String, segments: seq<String>)
    requires |segments| >= 1
    requires forall i :: 0 <= i < |segments| ==> ',' !in segments[i]
    requires Join(segments, ',') == category
    ensures var tags := NormaliseCategories(category);
      |tags| == |segments| &&
      forall i :: 0 <= i < |tags| ==> tags[i] == ToUpperCase(Trim(segments[i]))
  {
    SplitJoin(segments, ',');
  }

  /** Normalising the joined tags again changes nothing. */
  lemma NormaliseCategoriesIdempotent(category: String)
    ensures NormaliseCategories(Join(NormaliseCategories(category), ',')) == NormaliseCategories(category)
  {
    var tags := NormaliseCategories(category);
    NormaliseCategoriesAreTags(category);
    SplitJoin(tags, ',');
    var again := NormaliseCategories(Join(tags, ','));
    forall i | 0 <= i < |tags| ensures again[i] == tags[i] {
      TrimOfTrimmed(tags[i]);
      ToUpperCaseOfUpper(tags[i]);
    }
  }

  /** A blank segment (empty, or whitespace only) becomes an empty tag at
      its own position; it is not dropped. */
  lemma NormaliseBlankSegment(category: String, i: nat)
    requires i < |Split(category, ',')| && AllWhitespace(Split(category, ',')[i])
    ensures NormaliseCategories(category)[i] == []
  {
    var segment := Split(category, ',')[i];
    assert segment == segment + [] + [];
    TrimUnique(segment, [], []);
  }

  /** A trailing comma adds one empty tag after the tags of the rest. */
  lemma NormaliseTrailingComma(category: String)
    ensures var tags := NormaliseCategories(category + [',']);
      |tags| == |NormaliseCategories(category)| + 1 &&
      tags[..|tags| - 1] == NormaliseCategories(category) &&
      tags[|tags| - 1] == []
  {
    SplitTrailingSeparator(category, ',');
    var parts := Split(category, ',');
    assert Split(category + [','], ',')[|parts|] == [];
    NormaliseBlankSegment(category + [','], |parts|);
  }

  /** Two or three segments normalise one by one, in order. */
  lemma NormaliseTwoSegments(category: String, a: String, b: String)
    requires Split(category, ',') == [a, b]
    ensures NormaliseCategories(category) == [ToUpperCase(Trim(a)), ToUpperCase(Trim(b))]
  {
  }

  lemma NormaliseThreeSegments(category: String, a: String, b: String, c: String)
    requires Split(category, ',') == [a, b, c]
    ensures NormaliseCategories(category) == [ToUpperCase(Trim(a)), ToUpperCase(Trim(b)), ToUpperCase(Trim(c))]
  {
    var tags := NormaliseCategories(category);
    assert |tags| == 3;
    assert tags[0] == ToUpperCase(Trim(a));
    assert tags[1] == ToUpperCase(Trim(b));
    assert tags[2] == ToUpperCase(Trim(c));
  }

  // The concrete inputs below are worked out fact by fact, each in a lemma
  // of its own, so that no single proof unfolds the string functions on
  // every literal at once.

  lemma SplitTechFinance()
    ensures Split("tech, Finance", ',') == ["tech", " Finance"]
  {
    assert Join(["tech", " Finance"], ',') == "tech, Finance";
    SplitJoin(["tech", " Finance"], ',');
  }

  lemma SplitDoubleComma()
    ensures Split("a,,b", ',') == ["a", "", "b"]
  {
    assert Join(["a", "", "b"], ',') == "a,,b";
    SplitJoin(["a", "", "b"], ',');
  }

  lemma TagTech()
    ensures ToUpperCase(Trim("tech")) == "TECH"
  {
    TrimOfTrimmed("tech");
  }

  lemma TagFinance()
    ensures ToUpperCase(Trim(" Finance")) == "FINANCE"
  {
    assert " Finance" == " " + "Finance" + [];
    TrimUnique(" ", "Finance", []);
  }

  lemma TagsDoubleComma()
    ensures ToUpperCase(Trim("a")) == "A"
    ensures ToUpperCase(Trim("")) == ""
    ensures ToUpperCase(Trim("b")) == "B"
  {
    TrimOfTrimmed("a");
    TrimOfTrimmed("");
    TrimOfTrimmed("b");
  }

  /** A mixed-case entry with a space after the comma, as a user would type
      it: `"tech, Finance"` becomes `["TECH", "FINANCE"]`. */
  lemma NormaliseExample()
    ensures NormaliseCategories("tech, Finance") == ["TECH", "FINANCE"]
  {
    SplitTechFinance();
    TagTech();
    TagFinance();
    NormaliseTwoSegments("tech, Finance", "tech", " Finance");
  }

  /** The empty segment between two commas is kept as an empty tag. */
  lemma NormaliseDoubleComma()
    ensures NormaliseCategories("a,,b") == ["A", "", "B"]
  {
    SplitDoubleComma();
    TagsDoubleComma();
    NormaliseThreeSegments("a,,b", "a", "", "b");
  }

  /** An empty or whitespace-only input gives a single empty tag, not an
      empty list. */
  lemma NormaliseBlank(category: String)
    requires AllWhitespace(category)
    ensures NormaliseCategories(category) == [""]
  {
    assert category == category + [] + [];
    TrimUnique(category, [], []);
    NormaliseCategoriesSegments(category, [category]);
  }

  /** Even a draft that passes the `required` check can yield empty tags. */
  lemma FilledCategoryMayGiveEmptyTags()
    ensures exists d :: AllFilled(d) && [] in NormaliseCategories(d.category)
  {
    var d := Draft("t", ",", "d", "u", "c");
    assert Get(d, Title) != [] && Get(d, Category) != [] && Get(d, Description) != [];
    assert Get(d, CoverImage) != [] && Get(d, Content) != [];
    assert Join(["", ""], ',') == ",";
    SplitJoin(["", ""], ',');
    TrimOfTrimmed("");
    assert NormaliseCategories(d.category)[0] == [];
  }

  /** The request body: the draft spread into it, `category` replaced by the
      normalised tags, and the given timestamp added as `date`. */
  function BuildPayload(d: Draft, date: String): (p: Payload)
    ensures p.title == Get(d, Title) && p.description == Get(d, Description)
    ensures p.coverImage == Get(d, CoverImage) && p.content == Get(d, Content)
    ensures p.category == NormaliseCategories(Get(d, Category))
    ensures |p.category| == Count(Get(d, Category), ',') + 1
    ensures forall i :: 0 <= i < |p.category| ==> IsTag(p.category[i])
    ensures p.date == date
  {
    NormaliseCategoriesAreTags(d.category);
    Payload(d.title, NormaliseCategories(d.category), d.description, d.coverImage, d.content, date)
  }

  const CreateFailedMessage: String := "Failed to create blog"

  /** `createBlog`: post the payload; a response that is not ok becomes an
      error with a fixed message, a failed `fetch` keeps its own message. */
  function CreateBlog(d: Draft, date: String, reply: Reply): (r: CreateResult)
    ensures r.Created? <==> reply == HttpReply(true)
    ensures r.Created? ==> r.sent == BuildPayload(d, date)
    ensures reply == HttpReply(false) ==> r == Failed("Failed to create blog")
    ensures reply.NetworkError? ==> r == Failed(reply.message)
  {
    match reply
    case NetworkError(msg) => Failed(msg)
    case HttpReply(ok) => if ok then Created(BuildPayload(d, date)) else Failed(CreateFailedMessage)
  }

  /** What a submit event led to. */
  datatype SubmitOutcome = Blocked | Sent(result: CreateResult)

  /** The creation form component: its draft state, the requests it has
      posted and the effects it has asked for. */
  class Form {
    var draft: Draft
    var sent: seq<Payload>
    var effects: seq<Effect>

    constructor ()
      ensures draft == InitialDraft() && sent == [] && effects == []
    {
      draft := InitialDraft();
      sent := [];
      effects := [];
    }

    /** `handleChange`: input `f` now holds `v`; nothing else changes. */
    method HandleChange(f: Field, v: String)
      modifies this`draft
      ensures draft == With(old(draft), f, v)
      ensures Get(draft, f) == v
      ensures forall g :: g != f ==> Get(draft, g) == Get(old(draft), g)
    {
      draft := With(draft, f, v);
    }

    /** The mutation's `onSuccess`: invalidate the list's `['blogs']` query,
        clear every field, then tell the parent, once. */
    method OnSuccess()
      modifies this`draft, this`effects
      ensures draft == InitialDraft()
      ensures effects == old(effects) + [InvalidateQueries(["blogs"]), NotifyParent]
    {
      effects := effects + [InvalidateQueries(["blogs"])];
      draft := InitialDraft();
      effects := effects + [NotifyParent];
    }

    /** `handleSubmit` with the current time `date` and the server's `reply`.
        An empty input stops the submission before any request; otherwise
        one request is posted, and only a success clears the draft. */
    method Submit(date: String, reply: Reply) returns (outcome: SubmitOutcome)
      modifies this`draft, this`sent, this`effects
      ensures !AllFilled(old(draft)) ==>
        outcome == Blocked && draft == old(draft) && sent == old(sent) && effects == old(effects)
      ensures AllFilled(old(draft)) ==>
        outcome == Sent(CreateBlog(old(draft), date, reply)) &&
        sent == old(sent) + [BuildPayload(old(draft), date)]
      ensures outcome.Sent? && outcome.result.Created? ==>
        draft == InitialDraft() &&
        effects == old(effects) + [InvalidateQueries(["blogs"]), NotifyParent]
      ensures !(outcome.Sent? && outcome.result.Created?) ==>
        draft == old(draft) && effects == old(effects)
    {
      if !AllFilled(draft) {
        return Blocked;
      }
      var result := CreateBlog(draft, date, reply);
      sent := sent + [BuildPayload(draft, date)];
      outcome := Sent(result);
      if result.Created? {
        OnSuccess();
      }
    }
  }

}

/**
 * The post-processing of the UI-builder chat (both copies of the chat
 * service share it): the first `jsx`/`tsx` fence of a reply becomes a UI
 * snippet with a description picked from the text around it; when the
 * model cannot be reached, a stock widget is chosen by keyword.
 */
module ChatService {
  import opened Wrappers
  import opened Text

  const Fence: string := "```"

  /** Length of `` ```jsx `` or `` ```tsx ``. */
  const TagLength: nat := 6

  /** The stock widgets of the fallback; their code text is not part of this model. */
  datatype Widget = Button | Counter | Form | Clock

  /** A snippet's code: the text the model generated, or a stock widget. */
  datatype Code = Generated(text: string) | Stock(widget: Widget)

  datatype UiSnippet = UiSnippet(code: Code, language: string, description: string)

  datatype ChatResponse = ChatResponse(message: string, hasUISnippet: bool, uiSnippet: Option<UiSnippet>)

  const ComponentMessage: string := "Я создал интерактивный компонент для вас!"
  const DefaultDescription: string := "Динамически сгенерированный React компонент"

  // ---------------------------------------------------------------- the first fence

  /** Index of the first character at or after `i` that is not whitespace (`\s*` taken greedily). */
  function SpaceRun(s: string, i: nat): (j: nat)
    decreases |s| - i
    ensures i <= j && (i <= |s| ==> j <= |s|)
    ensures forall k :: i <= k < j ==> k < |s| && IsSpace(s[k])
    ensures j < |s| ==> !IsSpace(s[j])
  {
    if i < |s| && IsSpace(s[i]) then SpaceRun(s, i + 1) else i
  }

  /** A tagged fence, with or without whitespace after the tag, starts at `p`. */
  predicate TaggedAt(s: string, p: int) {
    OccursAt(s, "```jsx", p) || OccursAt(s, "```tsx", p)
  }

  /** Where the body of a fence at `p` starts: after the tag and the whitespace following it. */
  function BodyStart(s: string, p: nat): nat {
    SpaceRun(s, p + TagLength)
  }

  /** `/```(?:jsx|tsx)\s*([\s\S]*?)```/` matches at `p`. */
  predicate FenceMatchesAt(s: string, p: int) {
    p >= 0 && TaggedAt(s, p) && IndexOfFrom(s, Fence, BodyStart(s, p)).Some?
  }

  /** A match found at `at`, whose capture group spans `start` to `end`. */
  datatype Found = Found(at: nat, start: nat, end: nat)

  /**
   * The leftmost fence match at or after `from` (`String.prototype.match`
   * without the global flag): its body runs from after the whitespace to
   * the first fence after it.
   */
  function FirstFence(s: string, from: nat): (r: Option<Found>)
    decreases |s| - from
    ensures r.Some? ==> var f := r.value;
      && from <= f.at && FenceMatchesAt(s, f.at) && f.start == BodyStart(s, f.at)
      && f.start <= f.end && OccursAt(s, Fence, f.end)
      && (forall q :: f.start <= q < f.end ==> !OccursAt(s, Fence, q))
      && forall p :: from <= p < f.at ==> !FenceMatchesAt(s, p)
    ensures r.None? <==> forall p :: from <= p ==> !FenceMatchesAt(s, p)
  {
    if from + TagLength > |s| then None
    else if TaggedAt(s, from) then
      match IndexOfFrom(s, Fence, BodyStart(s, from))
      case Some(q) =>
        assert FenceMatchesAt(s, from);
        Some(Found(from, BodyStart(s, from), q))
      case None => FirstFence(s, from + 1)
    else FirstFence(s, from + 1)
  }

  // ---------------------------------------------------------------- the description

  /** The trimmed text when its length lies strictly between 10 and 200. */
  function Bounded(text: string): Option<string> {
    var t := Trim(text);
    if 10 < |t| < 200 then Some(t) else None
  }

  /** `/\/\*\*([\s\S]*?)\*\//` matches at `p`. */
  predicate CommentAt(code: string, p: int) {
    OccursAt(code, "/**", p) && IndexOfFrom(code, "*/", p + 3).Some?
  }

  /** The leftmost doc comment at or after `from`, its body ending at the first closing delimiter after the opener. */
  function FirstComment(code: string, from: nat): (r: Option<Found>)
    decreases |code| - from
    ensures r.Some? ==> var c := r.value;
      && from <= c.at && CommentAt(code, c.at) && c.start == c.at + 3 && c.start <= c.end
      && OccursAt(code, "*/", c.end) && !Contains(code[c.start..c.end], "*/")
      && forall p :: from <= p < c.at ==> !CommentAt(code, p)
    ensures r.None? <==> forall p :: from <= p ==> !CommentAt(code, p)
  {
    if from + 3 > |code| then None
    else if OccursAt(code, "/**", from) then
      match IndexOfFrom(code, "*/", from + 3)
      case Some(q) =>
        NothingBeforeFirst(code, "*/", from + 3);
        assert CommentAt(code, from);
        Some(Found(from, from + 3, q))
      case None => FirstComment(code, from + 1)
    else FirstComment(code, from + 1)
  }

  /** The text between `from` and the first occurrence of `t` after it does not contain `t`. */
  lemma NothingBeforeFirst(s: string, t: string, from: nat)
    requires t != [] && IndexOfFrom(s, t, from).Some?
    ensures var q := IndexOfFrom(s, t, from).value; !Contains(s[from..q], t)
  {
    var q := IndexOfFrom(s, t, from).value;
    var body := s[from..q];
    var k := IndexOfFrom(body, t, 0);
    if k.Some? {
      assert body[k.value..k.value + |t|] == s[from + k.value..from + k.value + |t|];
      assert OccursAt(s, t, from + k.value);
    }
  }

  /**
   * `extractDescriptionFromResponse`: the text before the first fence if
   * it is of a reasonable length, else the third fence-separated piece
   * under the same bounds, else the first doc comment of the code, else
   * the default.
   */
  function Description(full: string, code: string): string {
    DescriptionFrom(Split(full, Fence), code)
  }

  /** The choice among the fence-separated pieces of the reply and the code's comment. */
  function DescriptionFrom(pieces: seq<string>, code: string): string
    requires |pieces| >= 1
  {
    var before := Bounded(pieces[0]);
    var after := if |pieces| > 2 then Bounded(pieces[2]) else None;
    if before.Some? then before.value
    else if after.Some? then after.value
    else CommentDescription(code)
  }

  /** Neither the first nor the last character is whitespace. */
  predicate NoOuterSpace(d: string) {
    d == [] || (!IsSpace(d[0]) && !IsSpace(d[|d| - 1]))
  }

  lemma TrimHasNoOuterSpace(t: string)
    ensures NoOuterSpace(Trim(t))
  {
  }

  /** The body of the code's first doc comment, trimmed, or the default; either way without surrounding whitespace. */
  function CommentDescription(code: string): (d: string)
    ensures NoOuterSpace(d)
    ensures FirstComment(code, 0).Some? ==>
      var c := FirstComment(code, 0).value; d == Trim(code[c.start..c.end])
    ensures (forall p :: 0 <= p ==> !CommentAt(code, p)) ==> d == DefaultDescription
  {
    match FirstComment(code, 0)
    case Some(c) =>
      TrimHasNoOuterSpace(code[c.start..c.end]);
      Trim(code[c.start..c.end])
    case None =>
      DefaultDescriptionTrimmed();
      DefaultDescription
  }

  /** The default description starts and ends with a letter. */
  lemma DefaultDescriptionTrimmed()
    ensures DefaultDescription != [] && !IsSpace(DefaultDescription[0])
    ensures !IsSpace(DefaultDescription[|DefaultDescription| - 1])
  {
    assert DefaultDescription[0] == 'Д';
    assert DefaultDescription[|DefaultDescription| - 1] == 'т';
  }

  /** A description carries no surrounding whitespace, whichever source it comes from. */
  lemma DescriptionTrimmed(full: string, code: string)
    ensures NoOuterSpace(Description(full, code))
  {
    DescriptionFromTrimmed(Split(full, Fence), code);
  }

  lemma DescriptionFromTrimmed(pieces: seq<string>, code: string)
    requires |pieces| >= 1
    ensures NoOuterSpace(DescriptionFrom(pieces, code))
  {
    TrimHasNoOuterSpace(pieces[0]);
    if |pieces| > 2 {
      TrimHasNoOuterSpace(pieces[2]);
    }
  }

  /** A trimmed text before the first fence of 11 to 199 characters is the description. */
  lemma DescriptionBeforeFence(full: string, code: string)
    requires Bounded(Split(full, Fence)[0]).Some?
    ensures Description(full, code) == Trim(Split(full, Fence)[0])
    ensures 10 < |Description(full, code)| < 200
  {
  }

  /** The text before the first fence never contains a fence, so the description never takes one from there. */
  lemma BeforeHasNoFence(full: string)
    ensures !Contains(Split(full, Fence)[0], Fence)
  {
    SplitPiecesAreSeparatorFree(full, Fence);
  }

  /**
   * When neither fence-separated piece is of a reasonable length, the
   * description is the trimmed body of the code's first closed doc
   * comment, or the default when the code has none.
   */
  lemma DescriptionFromComment(full: string, code: string)
    requires Bounded(Split(full, Fence)[0]).None?
    requires |Split(full, Fence)| <= 2 || Bounded(Split(full, Fence)[2]).None?
    ensures FirstComment(code, 0).Some? ==>
      var c := FirstComment(code, 0).value; Description(full, code) == Trim(code[c.start..c.end])
    ensures (forall p :: 0 <= p ==> !CommentAt(code, p)) ==> Description(full, code) == DefaultDescription
  {
    assert Description(full, code) == CommentDescription(code);
  }

  /** When the text before the fence is too short or too long, the text after it is tried next. */
  lemma AfterWhenBeforeOutOfBounds(full: string, code: string)
    requires Bounded(Split(full, Fence)[0]).None?
    requires |Split(full, Fence)| > 2 && Bounded(Split(full, Fence)[2]).Some?
    ensures Description(full, code) == Trim(Split(full, Fence)[2])
  {
  }

  // ---------------------------------------------------------------- replies

  /**
   * The response to the model's reply (`content || ''` when the reply is
   * absent): a UI snippet from the first fence, or the text unchanged.
   */
  function ReplyResponse(content: Option<string>): (r: ChatResponse)
    ensures var text := content.GetOr([]);
      && (FirstFence(text, 0).None? <==> !r.hasUISnippet)
      && (!r.hasUISnippet ==> r.message == text && r.uiSnippet.None?)
      && (r.hasUISnippet ==>
            && r.message == ComponentMessage
            && r.uiSnippet.Some? && r.uiSnippet.value.language == "jsx"
            && var f := FirstFence(text, 0).value;
               && r.uiSnippet.value.code == Generated(Trim(text[f.start..f.end]))
               && r.uiSnippet.value.description == Description(text, Trim(text[f.start..f.end])))
  {
    var text := content.GetOr([]);
    match FirstFence(text, 0)
    case None => ChatResponse(text, false, None)
    case Some(f) =>
      var code := Trim(text[f.start..f.end]);
      ChatResponse(ComponentMessage, true, Some(UiSnippet(Generated(code), "jsx", Description(text, code))))
  }

  /** An absent reply is passed on as the empty message. */
  lemma AbsentReply()
    ensures ReplyResponse(None) == ChatResponse("", false, None)
  {
  }

  // ---------------------------------------------------------------- fallback

  /** `text` mentions one of the two keywords. */
  predicate MentionsEither(text: string, a: string, b: string) {
    Contains(text, a) || Contains(text, b)
  }

  /** The stock widget the lower-cased message asks for, by keyword priority. */
  function WidgetFor(message: string): (w: Widget)
    ensures var lower := ToLower(message);
      && (w == Button <==> MentionsEither(lower, "кнопка", "button"))
      && (w == Counter <==> !MentionsEither(lower, "кнопка", "button") && MentionsEither(lower, "счетчик", "counter"))
      && (w == Form <==> !MentionsEither(lower, "кнопка", "button") && !MentionsEither(lower, "счетчик", "counter")
                         && MentionsEither(lower, "форма", "form"))
      && (w == Clock <==> !MentionsEither(lower, "кнопка", "button") && !MentionsEither(lower, "счетчик", "counter")
                          && !MentionsEither(lower, "форма", "form"))
  {
    var lower := ToLower(message);
    if MentionsEither(lower, "кнопка", "button") then Button
    else if MentionsEither(lower, "счетчик", "counter") then Counter
    else if MentionsEither(lower, "форма", "form") then Form
    else Clock
  }

  function WidgetMessage(w: Widget): string {
    match w
    case Button => "Я создал интерактивную кнопку для вас!"
    case Counter => "Вот красивый счетчик!"
    case Form => "Создал красивую форму!"
    case Clock => "Создал простой компонент для демонстрации!"
  }

  function WidgetDescription(w: Widget): string {
    match w
    case Button => "Интерактивная кнопка с градиентом и анимацией"
    case Counter => "Интерактивный счетчик с кнопками управления"
    case Form => "Интерактивная форма обратной связи с валидацией"
    case Clock => "Часы реального времени"
  }

  /** `getFallbackResponse`: always a `jsx` snippet, the stock widget the keywords pick. */
  function FallbackResponse(message: string): (r: ChatResponse)
    ensures r.hasUISnippet && r.uiSnippet.Some? && r.uiSnippet.value.language == "jsx"
    ensures r.uiSnippet.value.code == Stock(WidgetFor(message))
    ensures r.message == WidgetMessage(WidgetFor(message))
  {
    var w := WidgetFor(message);
    ChatResponse(WidgetMessage(w), true, Some(UiSnippet(Stock(w), "jsx", WidgetDescription(w))))
  }

  /** Keywords are found in any letter case. */
  lemma FallbackIgnoresCase(message: string)
    ensures WidgetFor(ToLower(message)) == WidgetFor(message)
  {
    ToLowerIdempotent(message);
  }
}

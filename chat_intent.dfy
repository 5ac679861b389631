/**
 * `process_chat_message` (src/chat/websocket.py): the keyword routing of a chat message to
 * extraction, generation, modification, suggestions or help, the fields stamped on a new
 * recipe, and the containment of every error in a reply.
 */
module ChatIntent {
  import opened Wrappers
  import opened Json
  import opened Text
  import opened Schemas
  import opened Validation
  import opened RecipeProcessor

  // ---------------------------------------------------------------- keywords

  const ExtractKeywords: seq<string> := ["extract", "paste", "copy"]
  const CreateKeywords: seq<string> := ["create", "make", "generate", "recipe for"]
  const ModifyKeywords: seq<string> := ["change", "modify", "update", "make it", "convert", "substitute", "replace"]
  const SuggestKeywords: seq<string> := ["suggest", "tip", "help", "advice"]

  /** `any(keyword in low for keyword in keywords)`. */
  predicate MentionsAny(low: string, keywords: seq<string>) {
    exists k :: 0 <= k < |keywords| && Contains(low, keywords[k])
  }

  datatype Intent = ExtractIntent | CreateIntent | ModifyIntent | SuggestIntent | HelpIntent

  /**
   * The routing as written: extraction, then generation, then (for a recipe with ingredients)
   * modification and suggestions, then help. `low` is the lowered message.
   */
  function ClassifyAsWritten(low: string, hasIngredients: bool): Intent {
    if MentionsAny(low, ExtractKeywords) then ExtractIntent
    else if MentionsAny(low, CreateKeywords) then CreateIntent
    else if hasIngredients && MentionsAny(low, ModifyKeywords) then ModifyIntent
    else if hasIngredients && MentionsAny(low, SuggestKeywords) then SuggestIntent
    else HelpIntent
  }

  /** "make it" contains the generation keyword "make", so a message with it never routes to modification. */
  lemma MakeItNeverModifies(low: string, hasIngredients: bool)
    requires Contains(low, "make it")
    ensures ClassifyAsWritten(low, hasIngredients) != ModifyIntent
  {
    assert "make it" == "make" + " it";
    ContainsPrefixOf(low, "make", " it");
    assert Contains(low, CreateKeywords[1]);
  }

  /** A character of a contained substring is a character of the string. */
  lemma ContainedChar(s: string, sub: string, c: char)
    requires Contains(s, sub) && c in sub
    ensures c in s
  {
    var i :| 0 <= i <= |s| && ContainsAt(s, sub, i);
    var k :| 0 <= k < |sub| && sub[k] == c;
    assert s[i + k] == s[i..i + |sub|][k];
  }

  /** The help text's own example of a modification, lowered. */
  const MakeItVegetarian: string := "make it vegetarian"

  /** No extraction keyword occurs in the example: it has no 'x', 'p' or 'c'. */
  lemma MakeItVegetarianNoExtract()
    ensures !MentionsAny(MakeItVegetarian, ExtractKeywords)
  {
    if Contains(MakeItVegetarian, "extract") { ContainedChar(MakeItVegetarian, "extract", 'x'); }
    if Contains(MakeItVegetarian, "paste") { ContainedChar(MakeItVegetarian, "paste", 'p'); }
    if Contains(MakeItVegetarian, "copy") { ContainedChar(MakeItVegetarian, "copy", 'c'); }
    assert forall k :: 0 <= k < 3 ==> ExtractKeywords[k] in {"extract", "paste", "copy"};
  }

  /** The example the help text gives for a modification is routed to generation instead. */
  lemma MakeItVegetarianGenerates()
    ensures ClassifyAsWritten(MakeItVegetarian, true) == CreateIntent
  {
    assert ContainsAt(MakeItVegetarian, "make", 0);
    assert Contains(MakeItVegetarian, CreateKeywords[1]);
    MakeItVegetarianNoExtract();
  }

  /**
   * The routing this model uses: for a recipe with ingredients, a modification keyword is
   * tested before the generation keywords, so that "make it ..." and "modify ..." reach
   * `modify_recipe`.
   */
  function Classify(low: string, hasIngredients: bool): (r: Intent)
    ensures r == ModifyIntent || r == SuggestIntent ==> hasIngredients
    ensures r == HelpIntent ==> !MentionsAny(low, ExtractKeywords) && !MentionsAny(low, CreateKeywords)
  {
    if MentionsAny(low, ExtractKeywords) then ExtractIntent
    else if hasIngredients && MentionsAny(low, ModifyKeywords) then ModifyIntent
    else if MentionsAny(low, CreateKeywords) then CreateIntent
    else if hasIngredients && MentionsAny(low, SuggestKeywords) then SuggestIntent
    else HelpIntent
  }

  /** With ingredients, any modification keyword and no extraction keyword reaches modification. */
  lemma ModifyKeywordModifies(low: string, k: nat)
    requires k < |ModifyKeywords| && Contains(low, ModifyKeywords[k])
    requires !MentionsAny(low, ExtractKeywords)
    ensures Classify(low, true) == ModifyIntent
  {
  }

  /** The two routings differ only where a modification keyword meets a generation keyword. */
  lemma ClassifyAgreesElsewhere(low: string, hasIngredients: bool)
    requires !(hasIngredients && MentionsAny(low, ModifyKeywords) && MentionsAny(low, CreateKeywords))
    ensures Classify(low, hasIngredients) == ClassifyAsWritten(low, hasIngredients)
  {
  }

  /** Under the corrected routing the help text's example is a modification. */
  lemma MakeItVegetarianModifies()
    ensures Classify(MakeItVegetarian, true) == ModifyIntent
  {
    assert ContainsAt(MakeItVegetarian, "make it", 0);
    assert Contains(MakeItVegetarian, ModifyKeywords[3]);
    MakeItVegetarianNoExtract();
  }

  // ---------------------------------------------------------------- the text to extract

  /** The length of the extraction keyword at `i` of the lowered message, or 0. */
  function KeywordLengthAt(low: string, i: int): (r: nat)
    ensures r > 0 ==> 0 <= i && i + r <= |low|
  {
    if ContainsAt(low, "extract", i) then 7
    else if ContainsAt(low, "paste", i) then 5
    else if ContainsAt(low, "copy", i) then 4
    else 0
  }

  /** The leftmost position at or after `from` where an extraction keyword starts. */
  function FirstKeyword(low: string, from: nat): (r: Option<nat>)
    requires from <= |low|
    ensures r.Some? ==> from <= r.value < |low| && KeywordLengthAt(low, r.value) > 0
    ensures r.Some? ==> forall j :: from <= j < r.value ==> KeywordLengthAt(low, j) == 0
    ensures r.None? ==> forall j :: from <= j < |low| ==> KeywordLengthAt(low, j) == 0
    decreases |low| - from
  {
    if from == |low| then None
    else if KeywordLengthAt(low, from) > 0 then Some(from)
    else FirstKeyword(low, from + 1)
  }

  /**
   * `re.search(r'(?:extract|paste|copy).*?:\s*(.*)', message, re.IGNORECASE | re.DOTALL)` and
   * `group(1).strip()`: the text after the first ':' that follows the leftmost keyword.
   */
  function ExtractText(message: string): (r: Option<string>)
    ensures r.Some? <==> ExtractStart(message).Some?
    ensures r.Some? ==> Stripped(r.value)
  {
    var start := ExtractStart(message);
    if start.None? then None else Some(Strip(message[start.value..]))
  }

  /** Where the captured group begins: just past the first ':' after the leftmost keyword. */
  function ExtractStart(message: string): (r: Option<nat>)
    ensures r.Some? ==> 0 < r.value <= |message| && message[r.value - 1] == ':'
  {
    ExtractStartIn(message, Lower(message))
  }

  /** The same search, with the keywords looked up in `low`, the message lowered. */
  function ExtractStartIn(message: string, low: string): (r: Option<nat>)
    requires |low| == |message|
    ensures r.Some? ==> 0 < r.value <= |message| && message[r.value - 1] == ':'
  {
    var p := FirstKeyword(low, 0);
    if p.None? then None
    else
      var end := p.value + KeywordLengthAt(low, p.value);
      var colon := IndexOf(message[end..], ':');
      if colon.None? then None else Some(end + colon.value + 1)
  }

  /** Some keyword (in any case) is followed, somewhere after it, by a ':'. */
  predicate ColonAfterKeyword(message: string) {
    var low := Lower(message);
    exists i, j :: 0 <= i < |low| && KeywordLengthAt(low, i) > 0 && i + KeywordLengthAt(low, i) <= j < |message| && message[j] == ':'
  }

  /** The extraction keyword at `i`, when there is one. */
  function KeywordAt(low: string, i: int): (r: string)
    requires KeywordLengthAt(low, i) > 0
    ensures |r| == KeywordLengthAt(low, i) && low[i..i + |r|] == r
    ensures r == "extract" || r == "paste" || r == "copy"
  {
    if ContainsAt(low, "extract", i) then "extract"
    else if ContainsAt(low, "paste", i) then "paste"
    else "copy"
  }

  /** No extraction keyword occurs inside another one at a later offset. */
  lemma KeywordNotInside(kp: string, kq: string, d: nat)
    requires kp == "extract" || kp == "paste" || kp == "copy"
    requires kq == "extract" || kq == "paste" || kq == "copy"
    requires 0 < d && d + |kq| <= |kp|
    ensures kp[d..d + |kq|] != kq
  {
    assert kp[d..d + |kq|][0] != kq[0];
  }

  /** So a keyword starting strictly inside another one ends after it. */
  lemma KeywordsDoNotNest(low: string, p: nat, i: nat)
    requires KeywordLengthAt(low, p) > 0 && KeywordLengthAt(low, i) > 0
    requires p < i < p + KeywordLengthAt(low, p)
    ensures i + KeywordLengthAt(low, i) > p + KeywordLengthAt(low, p)
  {
    var kp := KeywordAt(low, p);
    var kq := KeywordAt(low, i);
    if i + |kq| <= p + |kp| {
      assert low[p..p + |kp|] == kp;
      var inner, found := kp[i - p..i - p + |kq|], low[i..i + |kq|];
      forall t | 0 <= t < |kq|
        ensures inner[t] == found[t]
      {
        assert inner[t] == low[p..p + |kp|][i - p + t];
      }
      assert inner == found;
      KeywordNotInside(kp, kq, i - p);
      assert false;
    }
  }

  /**
   * The search succeeds exactly when some keyword is followed later by a ':'. A keyword with
   * no ':' after it therefore leaves the message without text to extract.
   */
  lemma ExtractTextFound(message: string)
    ensures ExtractText(message).Some? <==> ColonAfterKeyword(message)
  {
    if ColonAfterKeyword(message) {
      ColonFound(message);
    }
    if ExtractText(message).Some? {
      FoundColon(message);
    }
  }

  /** A keyword with a ':' somewhere after it is enough for the search to succeed. */
  lemma ColonFound(message: string)
    requires ColonAfterKeyword(message)
    ensures ExtractStart(message).Some?
  {
    var low := Lower(message);
    var i, j :| 0 <= i < |low| && KeywordLengthAt(low, i) > 0 && i + KeywordLengthAt(low, i) <= j < |message| && message[j] == ':';
    var p := FirstKeyword(low, 0);
    assert p.Some?;
    var end := p.value + KeywordLengthAt(low, p.value);
    if i < end && i != p.value {
      KeywordsDoNotNest(low, p.value, i);
    }
    assert end <= j;
    assert message[end..][j - end] == ':';
  }

  /** A successful search has found a keyword and a ':' after it. */
  lemma FoundColon(message: string)
    requires ExtractStart(message).Some?
    ensures ColonAfterKeyword(message)
  {
    var low := Lower(message);
    var p := FirstKeyword(low, 0);
    var end := p.value + KeywordLengthAt(low, p.value);
    var colon := IndexOf(message[end..], ':');
    assert message[end + colon.value] == ':';
  }

  /** A mentioned extraction keyword is found by the scan. */
  lemma FirstKeywordOfMention(low: string)
    requires MentionsAny(low, ExtractKeywords)
    ensures FirstKeyword(low, 0).Some?
  {
    var k :| 0 <= k < 3 && Contains(low, ExtractKeywords[k]);
    var i :| 0 <= i <= |low| && ContainsAt(low, ExtractKeywords[k], i);
    assert KeywordLengthAt(low, i) > 0;
  }

  /** The first `c` in `s` is the one at `k` when none comes before it. */
  lemma IndexOfAt(s: string, c: char, k: nat)
    requires k < |s| && s[k] == c && c !in s[..k]
    ensures IndexOf(s, c) == Some(k)
  {
    assert s[..k + 1][k] == c;
  }

  /** The extraction request the chat test sends, up to its colon. */
  const ExtractRequest: string := "Extract recipe from:"

  /** The request, lower-cased, starts with the "extract" keyword. */
  lemma ExtractRequestKeyword(rest: string)
    ensures KeywordLengthAt(Lower(ExtractRequest + rest), 0) == 7
  {
    var m := ExtractRequest + rest;
    var low := Lower(m);
    forall t | 0 <= t < 7
      ensures low[..7][t] == "extract"[t]
    {
      assert m[t] == ExtractRequest[t];
    }
    assert low[0..7] == low[..7] == "extract";
  }

  /** After the keyword, the first ':' is the one that ends "recipe from:". */
  lemma ExtractRequestColon(rest: string)
    ensures IndexOf((ExtractRequest + rest)[7..], ':') == Some(12)
  {
    var tail := (ExtractRequest + rest)[7..];
    assert tail == " recipe from:" + rest;
    assert tail[..12] == " recipe from";
    IndexOfAt(tail, ':', 12);
  }

  /** A keyword at the very start and the first ':' after it decide what is extracted. */
  lemma ExtractTextAtStart(m: string, len: nat, colon: nat)
    requires KeywordLengthAt(Lower(m), 0) == len > 0
    requires IndexOf(m[len..], ':') == Some(colon)
    ensures ExtractStart(m) == Some(len + colon + 1)
  {
    StartIn(m, Lower(m), len, colon);
  }

  /** The same, for the search in any lowered copy of the message. */
  lemma StartIn(m: string, low: string, len: nat, colon: nat)
    requires |low| == |m| && KeywordLengthAt(low, 0) == len > 0
    requires IndexOf(m[len..], ':') == Some(colon)
    ensures ExtractStartIn(m, low) == Some(len + colon + 1)
  {
    assert FirstKeyword(low, 0) == Some(0);
  }

  lemma ExtractTextOfRequest(rest: string)
    ensures ExtractText(ExtractRequest + rest) == Some(Strip(rest))
  {
    var m := ExtractRequest + rest;
    ExtractRequestKeyword(rest);
    ExtractRequestColon(rest);
    ExtractTextAtStart(m, 7, 12);
    assert m[20..] == rest;
  }

  /** The test's request "Extract recipe from: ..." hands the text after the colon to the extractor. */
  lemma ExtractTextExample(body: string)
    requires Stripped(body)
    ensures ExtractText(ExtractRequest + (" " + body)) == Some(body)
  {
    ExtractTextOfRequest(" " + body);
    StripAfterSpace(body);
  }

  /** A leading blank is all that `strip` removes from " " + an already stripped text. */
  lemma StripAfterSpace(body: string)
    requires Stripped(body)
    ensures Strip(" " + body) == body
  {
    assert (" " + body)[1..] == body;
    assert StripStart(" " + body) == body;
    StripNoop(body);
  }

  // ---------------------------------------------------------------- replies

  const ExtractedReply: string := "I've extracted the recipe from your text. Here's what I found:"
  const PasteGuidance: string := "Please paste the recipe text after 'Extract recipe from:' and I'll help you structure it."
  const ModifiedReply: string := "I've updated your recipe based on your request."
  const NewRecipeHelp: string :=
    "I can help you create a recipe! You can:\n"
    + "- Ask me to create a specific recipe (e.g., 'Create a pasta recipe for 4')\n"
    + "- Paste a recipe text for me to extract (e.g., 'Extract recipe from: [your text]')\n"
    + "- Or describe what you'd like to cook!"
  const RecipeHelp: string :=
    "I can help you with this recipe. You can ask me to:\n"
    + "- Modify it (e.g., 'Make it vegetarian')\n"
    + "- Get suggestions (e.g., 'Suggest wine pairings')\n"
    + "- Convert units or scale servings\n"
    + "What would you like to do?"
  const SorryPrefix: string := "Sorry, I couldn't process that request. "

  function CreatedReply(title: string): string {
    "I've created a " + title + " recipe for you!"
  }

  /**
   * A reply: its text, the recipe data sent with it, and the recipe data stored on the
   * connection's recipe afterwards.
   */
  datatype Reply = Reply(content: string, data: Option<Object>, stored: Object)

  /** Whether the stored recipe has ingredients: `current_recipe_data.get("ingredients")` is truthy. */
  predicate HasIngredients(current: Object) {
    "ingredients" in current && Truthy(current["ingredients"])
  }

  /** The fields an extracted or generated recipe gets: the connection's recipe id, the kept creation time, a fresh update time. */
  function StampNew(data: Object, recipeId: string, current: Object, nowIso: string): (r: Object)
    ensures r.Keys == data.Keys + {"id", "created_at", "updated_at"}
    ensures r["id"] == Str(recipeId) && r["updated_at"] == Str(nowIso)
    ensures r["created_at"] == Get(current, "created_at", Str(nowIso))
    ensures forall k :: k in data && k !in {"id", "created_at", "updated_at"} ==> r[k] == data[k]
  {
    data["id" := Str(recipeId)]["created_at" := Get(current, "created_at", Str(nowIso))]["updated_at" := Str(nowIso)]
  }

  /** An error of the handler, reported in the reply: no data, nothing stored. */
  function Failed(current: Object, error: string): (r: Reply)
    ensures r.data.None? && r.stored == current
  {
    Reply(SorryPrefix + error, None, current)
  }

  /** Every error reply opens with the apology and ends with the error's own text. */
  lemma FailedApologizes(current: Object, error: string)
    ensures var r := Failed(current, error);
      StartsWith(r.content, SorryPrefix) && EndsWith(r.content, error)
  {
    var c := SorryPrefix + error;
    assert c[..|SorryPrefix|] == SorryPrefix;
    assert c[|c| - |error|..] == error;
  }

  /** The extraction branch. */
  function ExtractTurn(message: string, recipeId: string, current: Object, nowIso: string,
                       llm: LlmRequest -> Result<string, string>, parse: string -> Option<Value>): Reply {
    var text := ExtractText(message);
    if text.None? then Reply(PasteGuidance, None, current)
    else
      var data := ExtractRecipe(text.value, llm, parse);
      if data.Err? then Failed(current, data.error)
      else
        var stamped := StampNew(data.value, recipeId, current, nowIso);
        Reply(ExtractedReply, Some(stamped), stamped)
  }

  /** The generation branch: the whole message is the prompt; the reply names the new title. */
  function CreateTurn(message: string, recipeId: string, current: Object, nowIso: string,
                      llm: LlmRequest -> Result<string, string>, parse: string -> Option<Value>): Reply {
    var data := GenerateRecipe(message, llm, parse);
    if data.Err? then Failed(current, data.error)
    else
      var stamped := StampNew(data.value, recipeId, current, nowIso);
      Reply(CreatedReply(stamped["title"].s), Some(stamped), stamped)
  }

  /** The modification branch: only updated_at is stamped on the modified recipe. */
  function ModifyTurn(message: string, current: Object, nowIso: string,
                      llm: LlmRequest -> Result<string, string>, parse: string -> Option<Value>): Reply {
    var data := ModifyRecipe(current, message, llm, parse);
    if data.Err? then Failed(current, data.error)
    else
      var stamped := data.value["updated_at" := Str(nowIso)];
      Reply(ModifiedReply, Some(stamped), stamped)
  }

  /** The suggestion branch: the model's advice, sent with the unchanged recipe. */
  function SuggestTurn(message: string, current: Object, llm: LlmRequest -> Result<string, string>): Reply {
    var advice := GetRecipeSuggestions(current, message, llm);
    if advice.Err? then Failed(current, advice.error) else Reply(advice.value, Some(current), current)
  }

  /**
   * `process_chat_message`: it never raises. A message that is not a string has no `lower`;
   * that AttributeError, like every other error, becomes the "Sorry" reply with no data.
   */
  function ProcessChatMessage(message: Value, recipeId: string, current: Object, nowIso: string,
                              llm: LlmRequest -> Result<string, string>, parse: string -> Option<Value>): (r: Reply)
    ensures r.data.None? ==> r.stored == current
    ensures r.stored != current ==> r.data == Some(r.stored)
    ensures !message.Str? ==> r == Failed(current, NoAttribute(message, "lower"))
  {
    if !message.Str? then Failed(current, NoAttribute(message, "lower"))
    else
      var m := message.s;
      match Classify(Lower(m), HasIngredients(current))
      case ExtractIntent => ExtractTurn(m, recipeId, current, nowIso, llm, parse)
      case CreateIntent => CreateTurn(m, recipeId, current, nowIso, llm, parse)
      case ModifyIntent => ModifyTurn(m, current, nowIso, llm, parse)
      case SuggestIntent => SuggestTurn(m, current, llm)
      case HelpIntent =>
        if HasIngredients(current) then Reply(RecipeHelp, Some(current), current) else Reply(NewRecipeHelp, None, current)
  }

  /**
   * What each route does to the stored recipe and the reply: suggestions and help keep it;
   * the help text depends on whether it has ingredients; an extraction request with no ':'
   * after its keyword gets the paste guidance.
   */
  lemma ProcessChatMessageReplies(message: string, recipeId: string, current: Object, nowIso: string,
                                  llm: LlmRequest -> Result<string, string>, parse: string -> Option<Value>)
    ensures var r := ProcessChatMessage(Str(message), recipeId, current, nowIso, llm, parse);
      var intent := Classify(Lower(message), HasIngredients(current));
      && (intent == SuggestIntent || intent == HelpIntent ==> r.stored == current)
      && (intent == SuggestIntent && r.data.Some? ==> r.data == Some(current) && Stripped(r.content))
      && (intent == HelpIntent && HasIngredients(current) ==> r == Reply(RecipeHelp, Some(current), current))
      && (intent == HelpIntent && !HasIngredients(current) ==> r == Reply(NewRecipeHelp, None, current))
      && (intent == ExtractIntent && !ColonAfterKeyword(message) ==> r == Reply(PasteGuidance, None, current))
  {
    var r := ProcessChatMessage(Str(message), recipeId, current, nowIso, llm, parse);
    match Classify(Lower(message), HasIngredients(current))
    case ExtractIntent =>
      ExtractTextFound(message);
      assert r == ExtractTurn(message, recipeId, current, nowIso, llm, parse);
    case SuggestIntent =>
      assert r == SuggestTurn(message, current, llm);
    case _ =>
  }

  /**
   * A recipe built from an extraction or a generation carries the connection's recipe id,
   * keeps the stored creation time (or takes now), and is stamped with now as update time;
   * a modified recipe keeps the stored id and creation time and is stamped with now. In every
   * case the stored recipe is the one sent.
   */
  lemma ProcessChatMessageStamps(message: string, recipeId: string, current: Object, nowIso: string,
                                 llm: LlmRequest -> Result<string, string>, parse: string -> Option<Value>)
    ensures var r := ProcessChatMessage(Str(message), recipeId, current, nowIso, llm, parse);
      var intent := Classify(Lower(message), HasIngredients(current));
      && (r.data.Some? && (intent == ExtractIntent || intent == CreateIntent) ==>
            && r.stored == r.data.value
            && "id" in r.stored && r.stored["id"] == Str(recipeId)
            && "created_at" in r.stored && r.stored["created_at"] == Get(current, "created_at", Str(nowIso))
            && "updated_at" in r.stored && r.stored["updated_at"] == Str(nowIso))
      && (r.data.Some? && intent == ModifyIntent ==>
            && r.stored == r.data.value
            && "updated_at" in r.stored && r.stored["updated_at"] == Str(nowIso)
            && ("id" in current ==> "id" in r.stored && r.stored["id"] == current["id"])
            && ("created_at" in current ==> "created_at" in r.stored && r.stored["created_at"] == current["created_at"]))
  {
    var r := ProcessChatMessage(Str(message), recipeId, current, nowIso, llm, parse);
    match Classify(Lower(message), HasIngredients(current))
    case ExtractIntent =>
      assert r == ExtractTurn(message, recipeId, current, nowIso, llm, parse);
      ExtractTurnStamps(message, recipeId, current, nowIso, llm, parse);
    case CreateIntent =>
      assert r == CreateTurn(message, recipeId, current, nowIso, llm, parse);
      CreateTurnStamps(message, recipeId, current, nowIso, llm, parse);
    case ModifyIntent =>
      assert r == ModifyTurn(message, current, nowIso, llm, parse);
      ModifyTurnStamps(message, current, nowIso, llm, parse);
    case _ =>
  }

  /** An extracted recipe is stamped with the connection's recipe id and the times, and stored as sent. */
  lemma ExtractTurnStamps(message: string, recipeId: string, current: Object, nowIso: string,
                          llm: LlmRequest -> Result<string, string>, parse: string -> Option<Value>)
    ensures var r := ExtractTurn(message, recipeId, current, nowIso, llm, parse);
      r.data.Some? ==>
        && r.stored == r.data.value
        && "id" in r.stored && r.stored["id"] == Str(recipeId)
        && "created_at" in r.stored && r.stored["created_at"] == Get(current, "created_at", Str(nowIso))
        && "updated_at" in r.stored && r.stored["updated_at"] == Str(nowIso)
  {
  }

  /** A generated recipe is stamped as an extracted one is. */
  lemma CreateTurnStamps(message: string, recipeId: string, current: Object, nowIso: string,
                         llm: LlmRequest -> Result<string, string>, parse: string -> Option<Value>)
    ensures var r := CreateTurn(message, recipeId, current, nowIso, llm, parse);
      r.data.Some? ==>
        && r.stored == r.data.value
        && "id" in r.stored && r.stored["id"] == Str(recipeId)
        && "created_at" in r.stored && r.stored["created_at"] == Get(current, "created_at", Str(nowIso))
        && "updated_at" in r.stored && r.stored["updated_at"] == Str(nowIso)
  {
  }

  /** A modified recipe keeps the stored id and creation time, is stamped with now, and is stored as sent. */
  lemma ModifyTurnStamps(message: string, current: Object, nowIso: string,
                         llm: LlmRequest -> Result<string, string>, parse: string -> Option<Value>)
    ensures var r := ModifyTurn(message, current, nowIso, llm, parse);
      r.data.Some? ==>
        && r.stored == r.data.value
        && "updated_at" in r.stored && r.stored["updated_at"] == Str(nowIso)
        && ("id" in current ==> "id" in r.stored && r.stored["id"] == current["id"])
        && ("created_at" in current ==> "created_at" in r.stored && r.stored["created_at"] == current["created_at"])
  {
  }

  /** On the generation route, a failing model call is reported with its own text after the apology, and nothing is stored. */
  lemma ProcessChatMessageContainsErrors(message: string, recipeId: string, current: Object, nowIso: string,
                                         llm: LlmRequest -> Result<string, string>, parse: string -> Option<Value>)
    requires Classify(Lower(message), HasIngredients(current)) == CreateIntent
    requires llm(GenerateRequest(message)).Err?
    ensures ProcessChatMessage(Str(message), recipeId, current, nowIso, llm, parse)
      == Reply(SorryPrefix + llm(GenerateRequest(message)).error, None, current)
  {
  }

  /**
   * The one `except Exception` covers every route: when the extraction (once text was found
   * after a ':'), generation, modification or suggestion call fails, the reply is the apology
   * followed by that failure's text, with no data, and nothing is stored.
   */
  lemma ProcessChatMessageFailures(message: string, recipeId: string, current: Object, nowIso: string,
                                   llm: LlmRequest -> Result<string, string>, parse: string -> Option<Value>)
    ensures var r := ProcessChatMessage(Str(message), recipeId, current, nowIso, llm, parse);
      var intent := Classify(Lower(message), HasIngredients(current));
      var text := ExtractText(message);
      && (intent == ExtractIntent && text.Some? && ExtractRecipe(text.value, llm, parse).Err? ==>
            r == Reply(SorryPrefix + ExtractRecipe(text.value, llm, parse).error, None, current))
      && (intent == CreateIntent && GenerateRecipe(message, llm, parse).Err? ==>
            r == Reply(SorryPrefix + GenerateRecipe(message, llm, parse).error, None, current))
      && (intent == ModifyIntent && ModifyRecipe(current, message, llm, parse).Err? ==>
            r == Reply(SorryPrefix + ModifyRecipe(current, message, llm, parse).error, None, current))
      && (intent == SuggestIntent && GetRecipeSuggestions(current, message, llm).Err? ==>
            r == Reply(SorryPrefix + GetRecipeSuggestions(current, message, llm).error, None, current))
  {
    var r := ProcessChatMessage(Str(message), recipeId, current, nowIso, llm, parse);
    match Classify(Lower(message), HasIngredients(current))
    case ExtractIntent =>
      assert r == ExtractTurn(message, recipeId, current, nowIso, llm, parse);
    case CreateIntent =>
      assert r == CreateTurn(message, recipeId, current, nowIso, llm, parse);
    case ModifyIntent =>
      assert r == ModifyTurn(message, current, nowIso, llm, parse);
    case SuggestIntent =>
      assert r == SuggestTurn(message, current, llm);
    case HelpIntent =>
  }
}

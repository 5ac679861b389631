/**
 * Post-processing of the language model's replies (src/llm/recipe_processor.py): the markdown
 * fence cleanup, the per-mode error messages, the preservation of id and created_at on a
 * modification, and the suggestion prompt. The model itself and `json.loads` are oracles; the
 * system prompts are not modelled.
 */
module RecipeProcessor {
  import opened Wrappers
  import opened Json
  import opened Text
  import opened Schemas
  import opened Validation

  // ---------------------------------------------------------------- fence cleanup

  /**
   * `re.sub(r'^```(?:json)?\n?', '', t)`: a leading fence, its optional "json" tag and one newline.
   * Both optional parts are greedy.
   */
  function DropOpeningFence(t: string): (r: string)
    requires StartsWith(t, "```")
    ensures |r| <= |t| - 3 && r == t[|t| - |r|..]
  {
    var u := if StartsWith(t, "```json") then t[7..] else t[3..];
    if StartsWith(u, "\n") then u[1..] else u
  }

  /** The prefixes `^```(?:json)?\n?` can match. */
  const OpeningFences: set<string> := {"```", "```\n", "```json", "```json\n"}

  /** The opening fence removed is the longest of the four that the text starts with. */
  lemma DropOpeningFenceLongest(t: string)
    requires StartsWith(t, "```")
    ensures var r := DropOpeningFence(t);
      && t[..|t| - |r|] in OpeningFences
      && forall p :: p in OpeningFences && StartsWith(t, p) ==> |p| <= |t| - |r|
  {
    var r := DropOpeningFence(t);
    assert StartsWith(t, "```json\n") ==> t[..8][..7] == "```json" && t[7] == '\n';
    assert StartsWith(t, "```\n") ==> t[3] == '\n' && !StartsWith(t, "```json");
    assert StartsWith(t, "```json") ==> t[3] == 'j';
    var k := if StartsWith(t, "```json") then 7 else 3;
    if k < |t| && t[k] == '\n' {
      assert t[k..][..1] == "\n";
      assert t[..k + 1] == t[..k] + "\n";
    }
  }

  /**
   * `re.sub(r'\n?```$', '', u)`: a closing fence with an optional newline before it. Python's `$`
   * also matches just before a final "\n", which is then kept.
   */
  function DropClosingFence(u: string): (r: string)
    ensures |r| <= |u|
  {
    if EndsWith(u, "\n```\n") then u[..|u| - 5] + "\n"
    else if EndsWith(u, "```\n") then u[..|u| - 4] + "\n"
    else if EndsWith(u, "\n```") then u[..|u| - 4]
    else if EndsWith(u, "```") then u[..|u| - 3]
    else u
  }

  /**
   * The text is what is left once a closing fence (with the newline before it, when there is
   * one) is put back, before a kept final newline; without a closing fence nothing changes.
   */
  lemma DropClosingFenceRestores(u: string)
    ensures var r := DropClosingFence(u);
      && (!EndsWith(u, "```") && !EndsWith(u, "```\n") ==> r == u)
      && (EndsWith(u, "\n```") ==> r + "\n```" == u)
      && (EndsWith(u, "```") && !EndsWith(u, "\n```") ==> r + "```" == u)
      && (EndsWith(u, "\n```\n") ==> EndsWith(r, "\n") && r[..|r| - 1] + "\n```\n" == u)
      && (EndsWith(u, "```\n") && !EndsWith(u, "\n```\n") ==> EndsWith(r, "\n") && r[..|r| - 1] + "```\n" == u)
  {
    var r := DropClosingFence(u);
    if EndsWith(u, "\n```\n") {
      assert u[|u| - 4..] == "```\n";
      assert r[..|r| - 1] == u[..|u| - 5];
    } else if EndsWith(u, "```\n") {
      assert u[|u| - 1] == '\n';
      assert r[..|r| - 1] == u[..|u| - 4];
    } else if EndsWith(u, "\n```") {
      assert u[|u| - 3..] == "```";
    } else if EndsWith(u, "```") {
      assert u[|u| - 1] == '`';
    }
  }

  /** The fence removal `re.sub` pair, applied only to a text starting with "```". */
  function Unfence(t: string): (r: string)
    ensures |r| <= |t|
    ensures !StartsWith(t, "```") ==> r == t
  {
    if StartsWith(t, "```") then DropClosingFence(DropOpeningFence(t)) else t
  }

  /** The text handed to the JSON parser: the stripped reply, with its fences removed when it starts with one. */
  function CleanReply(response: string): string {
    Unfence(Strip(response))
  }

  /** A reply that does not start with a fence reaches the parser only stripped. */
  lemma CleanReplyUnfenced(response: string)
    requires !StartsWith(Strip(response), "```")
    ensures CleanReply(response) == Strip(response)
  {
  }

  /** A tagged opening fence and its newline go, whatever follows. */
  lemma DropOpeningJson(w: string)
    ensures DropOpeningFence("```json\n" + w) == w
  {
    var t := "```json\n" + w;
    assert t[..3] == "```" && t[..7] == "```json";
    assert t[7..][..1] == "\n" && t[7..][1..] == w;
  }

  /** An untagged opening fence and its newline go, whatever follows. */
  lemma DropOpeningPlain(w: string)
    ensures DropOpeningFence("```\n" + w) == w
  {
    var t := "```\n" + w;
    assert t[..3] == "```";
    assert !StartsWith(t, "```json") by {
      if |t| >= 7 { assert t[..7][3] == '\n'; }
    }
    assert t[3..][..1] == "\n" && t[3..][1..] == w;
  }

  /** A closing fence on its own line goes with its newline. */
  lemma DropClosingLine(w: string)
    ensures DropClosingFence(w + "\n```") == w
  {
    var u := w + "\n```";
    assert u[|u| - 1] == '`';
    assert u[|u| - 4..] == "\n```";
    assert u[..|u| - 4] == w;
  }

  /** "```json\n" + body + "\n```" loses exactly its fences. */
  lemma UnfenceJson(body: string)
    ensures Unfence("```json\n" + body + "\n```") == body
  {
    var t := "```json\n" + body + "\n```";
    assert t == "```json\n" + (body + "\n```");
    assert t[..3] == "```";
    DropOpeningJson(body + "\n```");
    DropClosingLine(body);
  }

  /** "```\n" + body + "\n```" loses exactly its fences, whatever the body starts with. */
  lemma UnfencePlain(body: string)
    ensures Unfence("```\n" + body + "\n```") == body
  {
    var t := "```\n" + body + "\n```";
    assert t == "```\n" + (body + "\n```");
    assert t[..3] == "```";
    DropOpeningPlain(body + "\n```");
    DropClosingLine(body);
  }

  /** The fenced form "```json\n...\n```" yields exactly its body, which the tests rely on. */
  lemma CleanReplyJsonFence(body: string)
    ensures CleanReply("```json\n" + body + "\n```") == body
  {
    var t := "```json\n" + body + "\n```";
    assert t[0] == '`' && t[|t| - 1] == '`';
    StripNoop(t);
    UnfenceJson(body);
  }

  /** An untagged fence "```\n...\n```" yields its body too. */
  lemma CleanReplyPlainFence(body: string)
    ensures CleanReply("```\n" + body + "\n```") == body
  {
    var t := "```\n" + body + "\n```";
    assert t[0] == '`' && t[|t| - 1] == '`';
    StripNoop(t);
    UnfencePlain(body);
  }

  /**
   * On a stripped text the `$`-before-newline cases of the closing fence cannot arise: the text
   * after the opening fence ends in the reply's last, non-whitespace character.
   */
  lemma CleanReplyNoFinalNewline(response: string)
    requires StartsWith(Strip(response), "```")
    ensures var u := DropOpeningFence(Strip(response)); u == [] || !IsSpace(u[|u| - 1])
  {
  }

  // ---------------------------------------------------------------- replies and their errors

  /** The three reply handlers: `extract_recipe_from_text`, `generate_recipe_from_prompt`, `modify_recipe`. */
  datatype Mode = Extract | Generate | Modify

  /** The ValueError raised when the reply is not JSON. */
  function ParseFailure(mode: Mode): string {
    match mode
    case Extract => "Unable to understand the recipe format. Please try again."
    case Generate => "Unable to generate recipe. Please try again."
    case Modify => "Unable to modify recipe. Please try again."
  }

  /** The ValueError raised when the JSON is not a valid recipe (or the handler fails on it otherwise). */
  function SchemaFailure(mode: Mode): string {
    match mode
    case Extract => "The extracted recipe is incomplete. Please provide more details."
    case Generate => "The generated recipe is incomplete. Please try again."
    case Modify => "The modified recipe is invalid. Please try again."
  }

  /** The parsed object as it is validated: a modification gets the current id and created_at back. */
  function Stamped(mode: Mode, parsed: Object, current: Object): (r: Object)
    ensures mode != Modify ==> r == parsed
  {
    if mode != Modify then parsed
    else
      var withId := if "id" in current then parsed["id" := current["id"]] else parsed;
      if "created_at" in current then withId["created_at" := current["created_at"]] else withId
  }

  /** What `json.loads` makes of the cleaned reply. */
  function Parsed(response: string, parse: string -> Option<Value>): Option<Value> {
    parse(CleanReply(response))
  }

  /**
   * The handlers' common tail: a failed completion propagates; unparseable JSON gives the
   * parse message; anything that is not a schema-valid recipe object (after the stamps) gives
   * the schema message. A JSON value that is not an object makes the stamping or the
   * `RecipeSchema(**data)` call raise, which the handler reports with the schema message.
   */
  function ProcessReply(mode: Mode, reply: Result<string, string>, parse: string -> Option<Value>, current: Object): Result<Object, string> {
    if reply.Err? then Err(reply.error)
    else ProcessParsed(mode, Parsed(reply.value, parse), current)
  }

  /** The same tail once the JSON parser has run: `parsed` is its value, `None` when it raised. */
  function ProcessParsed(mode: Mode, parsed: Option<Value>, current: Object): Result<Object, string> {
    if parsed.None? then Err(ParseFailure(mode))
    else if !parsed.value.Obj? then Err(SchemaFailure(mode))
    else
      var data := Stamped(mode, parsed.value.fields, current);
      if RecipeValid(data) then Ok(data) else Err(SchemaFailure(mode))
  }

  /**
   * The outcome of a completed reply, case by case: the parse message exactly when the JSON
   * parser fails, the recipe exactly when it is a valid object once stamped, and the schema
   * message otherwise.
   */
  lemma ProcessReplyOutcome(mode: Mode, response: string, parse: string -> Option<Value>, current: Object)
    ensures var r := ProcessReply(mode, Ok(response), parse, current);
      var parsed := Parsed(response, parse);
      && (r == Err(ParseFailure(mode)) <==> parsed.None?)
      && (r.Ok? <==> parsed.Some? && parsed.value.Obj? && RecipeValid(Stamped(mode, parsed.value.fields, current)))
      && (r.Ok? ==> r.value == Stamped(mode, parsed.value.fields, current))
      && (r.Err? && parsed.Some? ==> r.error == SchemaFailure(mode))
  {
    ProcessParsedOutcome(mode, Parsed(response, parse), current);
  }

  /** `ProcessReplyOutcome` for any value of the parser. */
  lemma ProcessParsedOutcome(mode: Mode, parsed: Option<Value>, current: Object)
    ensures var r := ProcessParsed(mode, parsed, current);
      && (r == Err(ParseFailure(mode)) <==> parsed.None?)
      && (r.Ok? <==> parsed.Some? && parsed.value.Obj? && RecipeValid(Stamped(mode, parsed.value.fields, current)))
      && (r.Ok? ==> r.value == Stamped(mode, parsed.value.fields, current))
      && (r.Err? && parsed.Some? ==> r.error == SchemaFailure(mode))
  {
    var r := ProcessParsed(mode, parsed, current);
    if parsed.None? {
      assert r == Err(ParseFailure(mode));
    } else {
      FailuresDiffer(mode);
      if !parsed.value.Obj? {
        assert r == Err(SchemaFailure(mode));
      } else {
        var data := Stamped(mode, parsed.value.fields, current);
        assert r == if RecipeValid(data) then Ok(data) else Err(SchemaFailure(mode));
      }
    }
  }

  /** The parse message and the schema message of a handler are never the same text. */
  lemma FailuresDiffer(mode: Mode)
    ensures ParseFailure(mode) != SchemaFailure(mode)
  {
    assert |ParseFailure(mode)| < |SchemaFailure(mode)|;
  }

  /** An error of the completion itself reaches the caller unchanged. */
  lemma ProcessReplyPropagates(mode: Mode, error: string, parse: string -> Option<Value>, current: Object)
    ensures ProcessReply(mode, Err(error), parse, current) == Err(error)
  {
  }

  /**
   * A modification keeps the current recipe's id and created_at whenever it has them, and
   * every other field as the model returned it.
   */
  lemma ModifyKeepsIdentity(parsed: Object, current: Object)
    ensures var r := Stamped(Modify, parsed, current);
      && ("id" in current ==> "id" in r && r["id"] == current["id"])
      && ("created_at" in current ==> "created_at" in r && r["created_at"] == current["created_at"])
      && (forall k :: k in parsed && k != "id" && k != "created_at" ==> k in r && r[k] == parsed[k])
      && (forall k :: k in r ==> k in parsed || k == "id" || k == "created_at")
  {
  }

  // ---------------------------------------------------------------- the three handlers

  /** What the handlers ask of the language model; the prompts' wording is not modelled. */
  datatype LlmRequest =
    | ExtractRequest(text: string)
    | GenerateRequest(prompt: string)
    | ModifyRequest(recipe: Object, request: string)
    | SuggestRequest(prompt: string)

  /** `extract_recipe_from_text`: a valid recipe is returned exactly as the model wrote it. */
  function ExtractRecipe(text: string, llm: LlmRequest -> Result<string, string>, parse: string -> Option<Value>): (r: Result<Object, string>)
    ensures r.Ok? ==> RecipeValid(r.value)
    ensures r.Ok? ==> llm(ExtractRequest(text)).Ok? && Parsed(llm(ExtractRequest(text)).value, parse) == Some(Obj(r.value))
    ensures r.Err? ==> llm(ExtractRequest(text)).Err? || r.error == ParseFailure(Extract) || r.error == SchemaFailure(Extract)
  {
    var reply := llm(ExtractRequest(text));
    if reply.Ok? then
      ProcessReplyOutcome(Extract, reply.value, parse, map[]);
      ProcessReply(Extract, reply, parse, map[])
    else ProcessReply(Extract, reply, parse, map[])
  }

  /** `generate_recipe_from_prompt`: as extraction, with its own messages. */
  function GenerateRecipe(prompt: string, llm: LlmRequest -> Result<string, string>, parse: string -> Option<Value>): (r: Result<Object, string>)
    ensures r.Ok? ==> RecipeValid(r.value)
    ensures r.Ok? ==> llm(GenerateRequest(prompt)).Ok? && Parsed(llm(GenerateRequest(prompt)).value, parse) == Some(Obj(r.value))
    ensures r.Err? ==> llm(GenerateRequest(prompt)).Err? || r.error == ParseFailure(Generate) || r.error == SchemaFailure(Generate)
  {
    var reply := llm(GenerateRequest(prompt));
    if reply.Ok? then
      ProcessReplyOutcome(Generate, reply.value, parse, map[]);
      ProcessReply(Generate, reply, parse, map[])
    else ProcessReply(Generate, reply, parse, map[])
  }

  /** `modify_recipe`: the result is valid and carries the current recipe's id and created_at when it has them. */
  function ModifyRecipe(current: Object, request: string, llm: LlmRequest -> Result<string, string>, parse: string -> Option<Value>): (r: Result<Object, string>)
    ensures r.Ok? ==> RecipeValid(r.value)
    ensures r.Ok? && "id" in current ==> "id" in r.value && r.value["id"] == current["id"]
    ensures r.Ok? && "created_at" in current ==> "created_at" in r.value && r.value["created_at"] == current["created_at"]
    ensures r.Err? ==> llm(ModifyRequest(current, request)).Err? || r.error == ParseFailure(Modify) || r.error == SchemaFailure(Modify)
  {
    var reply := llm(ModifyRequest(current, request));
    if reply.Ok? then
      ProcessReplyOutcome(Modify, reply.value, parse, current);
      var parsed := Parsed(reply.value, parse);
      if parsed.Some? && parsed.value.Obj? then
        ModifyKeepsIdentity(parsed.value.fields, current);
        ProcessReply(Modify, reply, parse, current)
      else ProcessReply(Modify, reply, parse, current)
    else ProcessReply(Modify, reply, parse, current)
  }

  // ---------------------------------------------------------------- suggestions

  /** `ing['text']`: the error text each kind of value gives when subscripted with a string. */
  function TextOf(item: Value): (r: Result<Value, string>)
    ensures r.Ok? <==> item.Obj? && "text" in item.fields
    ensures r.Ok? ==> r.value == item.fields["text"]
  {
    match item
    case Obj(fields) => if "text" in fields then Ok(fields["text"]) else Err("'text'")
    case Str(_) => Err("string indices must be integers, not 'str'")
    case Arr(_) => Err("list indices must be integers or slices, not str")
    case _ => Err("'" + TypeName(item) + "' object is not subscriptable")
  }

  /** The ingredient lines "- <text>", one per item, or the error of the first item without a text. */
  function IngredientLines(items: seq<Value>): (r: Result<seq<string>, string>)
    ensures r.Ok? <==> forall k :: 0 <= k < |items| ==> TextOf(items[k]).Ok?
    ensures r.Ok? ==> |r.value| == |items|
    ensures r.Ok? ==> forall k :: 0 <= k < |items| ==> r.value[k] == "- " + Display(items[k].fields["text"])
  {
    if items == [] then Ok([])
    else
      var head := TextOf(items[0]);
      if head.Err? then Err(head.error)
      else
        var rest := IngredientLines(items[1..]);
        if rest.Err? then
          assert forall k :: 1 <= k < |items| ==> items[k] == items[1..][k - 1];
          Err(rest.error)
        else Ok(["- " + Display(head.value)] + rest.value)
  }

  const SuggestionHeader: string := "Recipe: "
  const IngredientsHeader: string := "\n\nIngredients:\n"
  const RequestHeader: string := "\n\nRequest: "

  /** The user message of `get_recipe_suggestions`: the title (default "Untitled"), the ingredient lines and the request. */
  function SuggestionPrompt(recipe: Object, suggestionType: string): Result<string, string> {
    var items := Elements(Get(recipe, "ingredients", Arr([])));
    if items.Err? then Err(items.error)
    else
      var lines := IngredientLines(items.value);
      if lines.Err? then Err(lines.error)
      else Ok(SuggestionHeader + Display(Get(recipe, "title", Str("Untitled"))) + IngredientsHeader
              + Join("\n", lines.value) + RequestHeader + suggestionType)
  }

  /**
   * For a recipe whose ingredients are objects with one-line string texts, the prompt's
   * ingredient block splits at newlines into exactly one "- <text>" line per ingredient.
   */
  lemma SuggestionPromptLines(recipe: Object, suggestionType: string)
    requires "ingredients" in recipe && recipe["ingredients"].Arr? && |recipe["ingredients"].items| >= 1
    requires var items := recipe["ingredients"].items;
      forall k :: 0 <= k < |items| ==>
        items[k].Obj? && "text" in items[k].fields && items[k].fields["text"].Str? && '\n' !in items[k].fields["text"].s
    ensures var items := recipe["ingredients"].items;
      var r := SuggestionPrompt(recipe, suggestionType);
      r.Ok? && exists block ::
        && r.value == SuggestionHeader + Display(Get(recipe, "title", Str("Untitled"))) + IngredientsHeader + block + RequestHeader + suggestionType
        && |Split(block, '\n')| == |items|
        && forall k :: 0 <= k < |items| ==> Split(block, '\n')[k] == "- " + items[k].fields["text"].s
  {
    var items := recipe["ingredients"].items;
    var lines := IngredientLines(items);
    assert lines.Ok?;
    forall k | 0 <= k < |lines.value|
      ensures '\n' !in lines.value[k]
    {
      assert lines.value[k] == "- " + items[k].fields["text"].s;
    }
    SplitJoin(lines.value, '\n');
    var block := Join("\n", lines.value);
    assert Split(block, '\n') == lines.value;
  }

  /** A suggestion title defaults to "Untitled". */
  lemma SuggestionPromptUntitled(recipe: Object, suggestionType: string)
    requires "title" !in recipe && "ingredients" !in recipe
    ensures SuggestionPrompt(recipe, suggestionType) == Ok("Recipe: Untitled\n\nIngredients:\n\n\nRequest: " + suggestionType)
  {
    assert Elements(Arr([])) == Ok([]);
    assert IngredientLines([]) == Ok([]);
    assert Join("\n", []) == "";
    assert SuggestionHeader + "Untitled" + IngredientsHeader + "" + RequestHeader == "Recipe: Untitled\n\nIngredients:\n\n\nRequest: ";
  }

  /** `get_recipe_suggestions`: the model's reply, stripped, or the error of the prompt or the completion. */
  function GetRecipeSuggestions(recipe: Object, suggestionType: string, llm: LlmRequest -> Result<string, string>): (r: Result<string, string>)
    ensures r.Ok? ==> Stripped(r.value)
    ensures r.Ok? <==> SuggestionPrompt(recipe, suggestionType).Ok? && llm(SuggestRequest(SuggestionPrompt(recipe, suggestionType).value)).Ok?
    ensures r.Ok? ==> r.value == Strip(llm(SuggestRequest(SuggestionPrompt(recipe, suggestionType).value)).value)
  {
    var prompt := SuggestionPrompt(recipe, suggestionType);
    if prompt.Err? then Err(prompt.error)
    else
      var reply := llm(SuggestRequest(prompt.value));
      if reply.Err? then Err(reply.error) else Ok(Strip(reply.value))
  }
}

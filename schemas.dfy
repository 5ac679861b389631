/**
 * The pydantic models of src/models/schemas.py as validity predicates over JSON documents.
 * Only the constraints the models declare are modelled; pydantic's coercions between types
 * (a numeric string for an int, say) are not.
 */
module Schemas {
  import opened Wrappers
  import opened Json
  import opened Text
  import opened Validation

  // ---------------------------------------------------------------- recipe documents

  /** `key` is absent, null, or satisfies `p`: an `Optional[...]` field with that constraint. */
  predicate Optional(o: Object, key: string, p: Value -> bool) {
    key !in o || o[key].Null? || p(o[key])
  }

  predicate NonEmptyStr(v: Value) { v.Str? && |v.s| >= 1 }

  predicate NonNegativeInt(v: Value) { v.Int? && v.i >= 0 }

  predicate IsStrList(v: Value) { StrList(v) }

  predicate IsStr(v: Value) { v.Str? }

  /** `RecipeIngredient`: non-empty text, a quantity that is a number or a string, a unit (possibly ""). */
  predicate IngredientValid(v: Value) {
    && v.Obj?
    && "text" in v.fields && NonEmptyStr(v.fields["text"])
    && "quantity" in v.fields && (v.fields["quantity"].Int? || v.fields["quantity"].Float? || v.fields["quantity"].Str?)
    && "unit" in v.fields && v.fields["unit"].Str?
    && OptionalStr(v.fields, "canonical_name")
  }

  /** `RecipeStep`: an order of 1 or more and non-empty text. */
  predicate StepValid(v: Value) {
    && v.Obj?
    && "order" in v.fields && v.fields["order"].Int? && v.fields["order"].i >= 1
    && "text" in v.fields && NonEmptyStr(v.fields["text"])
    && OptionalStr(v.fields, "image_url")
  }

  /** The five kinds of `RecipeSource.type`: the pattern `^(url|video|pdf|image|text)$`. */
  predicate SourceType(t: string) {
    t == "url" || t == "video" || t == "pdf" || t == "image" || t == "text"
  }

  /** `RecipeSource`: a known type, and an optional url and file name. */
  predicate SourceValid(v: Value) {
    && v.Obj?
    && "type" in v.fields && v.fields["type"].Str? && SourceType(v.fields["type"].s)
    && OptionalStr(v.fields, "url")
    && OptionalStr(v.fields, "file_name")
  }

  /** Every item of a JSON list satisfies `p`. */
  predicate AllItems(v: Value, p: Value -> bool) {
    v.Arr? && forall k :: 0 <= k < |v.items| ==> p(v.items[k])
  }

  predicate IngredientList(v: Value) { AllItems(v, IngredientValid) }

  predicate StepList(v: Value) { AllItems(v, StepValid) }

  predicate PrivateVisibility(v: Value) { v == Str("private") }

  /**
   * `Recipe`: a title (which may be ""), a non-empty yield, at least one valid ingredient and
   * one valid step, non-negative times when given, string tags and images, a valid source, and
   * visibility exactly "private". Timestamps are optional strings (their parsing is not modelled).
   */
  predicate RecipeValid(o: Object) {
    && Optional(o, "id", IsStr)
    && "title" in o && o["title"].Str?
    && "yield" in o && NonEmptyStr(o["yield"])
    && Optional(o, "description", IsStr)
    && Optional(o, "created_at", IsStr)
    && Optional(o, "updated_at", IsStr)
    && Optional(o, "prep_time_minutes", NonNegativeInt)
    && Optional(o, "cook_time_minutes", NonNegativeInt)
    && Optional(o, "tags", IsStrList)
    && "ingredients" in o && IngredientList(o["ingredients"]) && |o["ingredients"].items| >= 1
    && "steps" in o && StepList(o["steps"]) && |o["steps"].items| >= 1
    && Optional(o, "images", IsStrList)
    && Optional(o, "source", SourceValid)
    && ("visibility" !in o || PrivateVisibility(o["visibility"]))
  }

  /**
   * `RecipePatch`: every field optional, and a given one obeys the bound of its field. Unlike
   * `Recipe`, the lists may be empty and the yield may be "".
   */
  predicate PatchValid(o: Object) {
    && Optional(o, "title", IsStr)
    && Optional(o, "yield", IsStr)
    && Optional(o, "description", IsStr)
    && Optional(o, "prep_time_minutes", NonNegativeInt)
    && Optional(o, "cook_time_minutes", NonNegativeInt)
    && Optional(o, "tags", IsStrList)
    && Optional(o, "ingredients", IngredientList)
    && Optional(o, "steps", StepList)
    && Optional(o, "images", IsStrList)
    && Optional(o, "source", SourceValid)
    && Optional(o, "visibility", PrivateVisibility)
  }

  /** The schema's bounds on a step are at least those `validate_recipe_completeness` checks. */
  lemma StepValidComplete(v: Value)
    requires StepValid(v)
    requires !AllSpace(v.fields["text"].s)
    ensures ItemComplete(Step, v)
  {
  }

  /**
   * A schema-valid recipe whose title, yield and item texts are not all whitespace passes the
   * completeness check.
   */
  lemma RecipeValidComplete(o: Object)
    requires RecipeValid(o)
    requires !AllSpace(o["title"].s) && !AllSpace(o["yield"].s)
    requires forall k :: 0 <= k < |o["ingredients"].items| ==> !AllSpace(o["ingredients"].items[k].fields["text"].s)
    requires forall k :: 0 <= k < |o["steps"].items| ==> !AllSpace(o["steps"].items[k].fields["text"].s)
    ensures CompletenessIssues(o) == Ok([])
  {
    CompletenessIssuesEmpty(o);
  }

  /** A schema-valid recipe's source never makes the (intended) source rule raise. */
  lemma RecipeValidSourceTotal(o: Object, isValidUrl: string -> bool)
    requires RecipeValid(o) && "source" in o && o["source"].Obj?
    ensures SanitizeSource(o["source"].fields, isValidUrl).Ok?
  {
    SanitizeSourceTotal(o["source"].fields, isValidUrl);
  }

  // ---------------------------------------------------------------- passwords

  /** A field error of a failed model validation: the field and pydantic's message. */
  datatype FieldError = FieldError(field: string, message: string)

  const TooShortMessage: string := "String should have at least 8 characters"
  const LetterMessage: string := "Value error, Password must contain at least one letter"
  const NumberMessage: string := "Value error, Password must contain at least one number"
  const MismatchMessage: string := "Value error, Passwords do not match"

  /**
   * The error of a password field, if any: the length constraint is checked before the
   * validator, which stops at the first missing letter or digit.
   */
  function PasswordError(field: string, password: string): (r: Option<FieldError>)
    ensures r.None? <==> StrongPassword(password)
    ensures r.Some? ==> r.value.field == field
  {
    if |password| < 8 then Some(FieldError(field, TooShortMessage))
    else if !HasLetter(password) then Some(FieldError(field, LetterMessage))
    else if !HasDigit(password) then Some(FieldError(field, NumberMessage))
    else None
  }

  function OptionToSeq<T>(o: Option<T>): seq<T> {
    if o.Some? then [o.value] else []
  }

  /**
   * `UserCreate`: the errors, field by field in declaration order. `emailError` is the e-mail
   * validator's verdict. The confirmation is compared with the password only when the password
   * itself validated (it is in `info.data` only then).
   */
  function UserCreateErrors(emailError: Option<string>, password: string, confirmPassword: string): seq<FieldError> {
    var email := if emailError.Some? then [FieldError("email", emailError.value)] else [];
    var pw := PasswordError("password", password);
    var confirm :=
      if |confirmPassword| < 8 then [FieldError("confirmPassword", TooShortMessage)]
      else if pw.None? && confirmPassword != password then [FieldError("confirmPassword", MismatchMessage)]
      else [];
    email + OptionToSeq(pw) + confirm
  }

  /** Sign-up data is accepted exactly for a valid e-mail and a strong password confirmed verbatim. */
  lemma UserCreateAccepted(emailError: Option<string>, password: string, confirmPassword: string)
    ensures UserCreateErrors(emailError, password, confirmPassword) == [] <==>
      emailError.None? && StrongPassword(password) && confirmPassword == password
  {
  }

  /**
   * A mismatching confirmation is reported only when the password itself passed and the
   * confirmation met its own length bound.
   */
  lemma MismatchOnlyAfterPassword(emailError: Option<string>, password: string, confirmPassword: string)
    ensures FieldError("confirmPassword", MismatchMessage) in UserCreateErrors(emailError, password, confirmPassword) <==>
      StrongPassword(password) && |confirmPassword| >= 8 && confirmPassword != password
  {
    var errors := UserCreateErrors(emailError, password, confirmPassword);
    if StrongPassword(password) && |confirmPassword| >= 8 && confirmPassword != password {
      assert errors[|errors| - 1] == FieldError("confirmPassword", MismatchMessage);
    }
  }

  /** `ResetPasswordRequest`: the new password obeys the same rule as at sign-up. */
  function ResetPasswordErrors(newPassword: string): (r: seq<FieldError>)
    ensures r == [] <==> StrongPassword(newPassword)
    ensures forall e :: e in r ==> e.field == "newPassword"
  {
    OptionToSeq(PasswordError("newPassword", newPassword))
  }

  // ---------------------------------------------------------------- chat messages

  const ChatMessageType: string := "chat_message"
  const RecipeUpdateType: string := "recipe_update"

  /** `ChatMessage` and `RecipeUpdate` accept their own type only (patterns `^chat_message$`, `^recipe_update$`). */
  predicate MessageTypeValid(model: string, t: string) {
    if model == "ChatMessage" then t == ChatMessageType else t == RecipeUpdateType
  }

  /** The default message id: "msg_" and the first 8 hex digits of a random UUID. */
  function DefaultMessageId(uuidHex: string): (r: string)
    requires |uuidHex| == 32 && forall i :: 0 <= i < 32 ==> IsHexDigit(uuidHex[i])
    ensures |r| == 12 && StartsWith(r, "msg_")
    ensures forall i :: 4 <= i < 12 ==> IsHexDigit(r[i])
    ensures r[4..] == uuidHex[..8]
  {
    "msg_" + uuidHex[..8]
  }
}

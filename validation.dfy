/**
 * Input validators and sanitisers of src/utils/validation.py. `bleach.clean` and the URL
 * pattern are parameters (`clean`, `isValidUrl`); regex classes are ASCII.
 */
module Validation {
  import opened Wrappers
  import opened Json
  import opened Text

  // ---------------------------------------------------------------- sanitize_string

  /**
   * `sanitize_string(value, max_length)`: non-strings become ""; strings are cleaned of markup,
   * trimmed, and cut to `max_length` when that is given and non-zero (a negative one cuts from
   * the end, as Python's slice does).
   */
  function SanitizeString(value: Value, maxLength: Option<int>, clean: string -> string): (r: string)
    ensures !value.Str? ==> r == ""
    ensures value.Str? ==> var t := Strip(clean(value.s)); |r| <= |t| && r == t[..|r|]
    ensures value.Str? && (maxLength.None? || maxLength.value == 0 || |Strip(clean(value.s))| <= maxLength.value)
      ==> r == Strip(clean(value.s))
    ensures maxLength.Some? && maxLength.value > 0 ==> |r| <= maxLength.value
    ensures value.Str? && maxLength.Some? && maxLength.value > 0 && |Strip(clean(value.s))| > maxLength.value
      ==> |r| == maxLength.value
  {
    if !value.Str? then ""
    else
      var t := Strip(clean(value.s));
      if maxLength.Some? && maxLength.value != 0 && |t| > maxLength.value then PyPrefix(t, maxLength.value)
      else t
  }

  // ---------------------------------------------------------------- sanitize_filename

  /** What survives `re.sub(r'[^\w\s.-]', '', ...)`: word characters, whitespace, dots and dashes. */
  predicate SafeFilenameChar(c: char) { IsWordChar(c) || IsSpace(c) || c == '.' || c == '-' }

  /** A character that can remain once spaces have become underscores. */
  predicate NameChar(c: char) { SafeFilenameChar(c) && c != ' ' }

  /** `re.sub(r'\.+', '_', s)`: every run of dots becomes one underscore. */
  function CollapseDots(s: string): (r: string)
    ensures '.' !in r
    ensures forall c :: c in r ==> c == '_' || (c in s && c != '.')
    decreases |s|
  {
    if s == [] then []
    else if s[0] == '.' then "_" + CollapseDots(DropDots(s[1..]))
    else [s[0]] + CollapseDots(s[1..])
  }

  /** `s` without its leading dots. */
  function DropDots(s: string): (r: string)
    ensures |r| <= |s| && r == s[|s| - |r|..]
    ensures r == [] || r[0] != '.'
  {
    if s != [] && s[0] == '.' then DropDots(s[1..]) else s
  }

  /** The file name with path, unsafe characters and spaces dealt with (the first three steps). */
  function FilenameBase(filename: string): (r: string)
    ensures AllChars(r, NameChar)
  {
    var base := AfterLast(AfterLast(filename, '/'), '\\');
    var safe := Filter(base, SafeFilenameChar);
    ReplaceChar(safe, ' ', '_')
  }

  /** The extension `sanitize_filename` keeps: the text after the last dot of the cleaned name, if it has a dot. */
  function FilenameExtension(filename: string): Option<string> {
    var parts := Split(FilenameBase(filename), '.');
    if |parts| > 1 then Some(parts[|parts| - 1]) else None
  }

  /** The fourth step's new stem: everything before the last dot, each run of dots folded into one underscore. */
  function FoldedStem(parts: seq<string>): (r: string)
    requires |parts| > 1
    requires forall i :: 0 <= i < |parts| ==> AllChars(parts[i], NameChar)
    ensures '.' !in r && AllChars(r, NameChar)
  {
    var joined := Join(".", parts[..|parts| - 1]);
    JoinChars(".", parts[..|parts| - 1], NameChar);
    CollapseDots(joined)
  }

  /** The last step for a name with one dot: cut the stem so that the whole fits, keeping the extension. */
  function CapDotted(stem: string, ext: string, maxLength: int): (r: string)
    requires '.' !in stem && '.' !in ext && AllChars(stem, NameChar) && AllChars(ext, NameChar)
    ensures AllChars(r, NameChar) && CountChar(r, '.') == 1
    ensures |ext| < maxLength ==> |r| <= maxLength && EndsWith(r, "." + ext)
  {
    var dotted := stem + "." + ext;
    DottedName(stem, ext);
    if |dotted| <= maxLength then dotted
    else
      var parts := Split(dotted, '.');
      var short := PyPrefix(parts[0], maxLength - |parts[1]| - 1);
      DottedName(short, ext);
      short + "." + parts[1]
  }

  /** The last step for a name without a dot: cut it to `maxLength`. */
  function CapPlain(name: string, maxLength: int): (r: string)
    requires '.' !in name && AllChars(name, NameChar)
    ensures AllChars(r, NameChar) && CountChar(r, '.') == 0
    ensures 0 <= maxLength ==> |r| <= maxLength
  {
    CountCharZero(name, '.');
    if |name| <= maxLength then name
    else
      SplitNoSep(name, '.');
      var r := PyPrefix(name, maxLength);
      CountCharZero(r, '.');
      r
  }

  /**
   * `sanitize_filename`: keep the last path component, drop unsafe characters, turn spaces into
   * underscores, fold every dot but the last into underscores, then shorten the stem (or the
   * whole name when it has no dot) to fit `maxLength`.
   */
  function SanitizeFilename(filename: string, maxLength: int): (r: string)
    ensures '/' !in r && '\\' !in r && ' ' !in r
    ensures AllChars(r, SafeFilenameChar)
    ensures CountChar(r, '.') <= 1
    ensures FilenameExtension(filename).Some? && |FilenameExtension(filename).value| < maxLength ==>
      |r| <= maxLength && EndsWith(r, "." + FilenameExtension(filename).value)
    ensures FilenameExtension(filename).None? && 0 <= maxLength ==> |r| <= maxLength
  {
    var spaced := FilenameBase(filename);
    var parts := Split(spaced, '.');
    SplitChars(spaced, '.', NameChar);
    CountCharZero(spaced, '.');
    var r := if |parts| > 1 then CapDotted(FoldedStem(parts), parts[|parts| - 1], maxLength) else CapPlain(spaced, maxLength);
    NameCharsSafe(r);
    r
  }

  /** A name of name characters has no separator and no space, and only characters the filter keeps. */
  lemma NameCharsSafe(r: string)
    requires AllChars(r, NameChar)
    ensures '/' !in r && '\\' !in r && ' ' !in r
    ensures AllChars(r, SafeFilenameChar)
  {
  }

  /** A stem and an extension, neither with a dot, joined by one dot. */
  lemma DottedName(stem: string, ext: string)
    requires '.' !in stem && '.' !in ext
    ensures CountChar(stem + "." + ext, '.') == 1
    ensures EndsWith(stem + "." + ext, "." + ext)
    ensures Split(stem + "." + ext, '.') == [stem, ext]
  {
    CountCharConcat(stem + ".", ext, '.');
    CountCharConcat(stem, ".", '.');
    CountCharZero(stem, '.');
    CountCharZero(ext, '.');
    SplitAt(stem, '.', ext);
    SplitNoSep(ext, '.');
    assert (stem + "." + ext)[|stem|..] == "." + ext;
  }

  // ---------------------------------------------------------------- is_valid_email

  predicate LocalChar(c: char) {
    IsAsciiLetter(c) || IsAsciiDigit(c) || c == '.' || c == '_' || c == '%' || c == '+' || c == '-'
  }

  predicate DomainChar(c: char) { IsAsciiLetter(c) || IsAsciiDigit(c) || c == '.' || c == '-' }

  /**
   * The pattern `[a-zA-Z0-9._%+-]+@[a-zA-Z0-9.-]+\.[a-zA-Z]{2,}` matching all of `t`, read
   * declaratively: some '@' at `at` and some '.' at `dot` cut `t` into a local part, a domain
   * and a top-level domain of two letters or more.
   */
  predicate EmailSplitAt(t: string, at: int, dot: int) {
    && 0 < at && at + 1 < dot && dot + 2 < |t|
    && t[at] == '@' && t[dot] == '.'
    && AllChars(t[..at], LocalChar)
    && AllChars(t[at + 1..dot], DomainChar)
    && AllChars(t[dot + 1..], IsAsciiLetter)
  }

  predicate EmailMatches(t: string) {
    exists at, dot :: 0 <= at < |t| && 0 <= dot < |t| && EmailSplitAt(t, at, dot)
  }

  function IndexOf(s: string, c: char): (r: Option<nat>)
    ensures r.None? <==> c !in s
    ensures r.Some? ==> r.value < |s| && s[r.value] == c && c !in s[..r.value]
  {
    if s == [] then None
    else if s[0] == c then Some(0)
    else
      var rest := IndexOf(s[1..], c);
      if rest.None? then None
      else
        assert s[..rest.value + 1] == [s[0]] + s[1..][..rest.value];
        Some(rest.value + 1)
  }

  function LastIndexOf(s: string, c: char): (r: Option<nat>)
    ensures r.None? <==> c !in s
    ensures r.Some? ==> r.value < |s| && s[r.value] == c && c !in s[r.value + 1..]
  {
    if s == [] then None
    else if s[|s| - 1] == c then Some(|s| - 1)
    else
      var rest := LastIndexOf(s[..|s| - 1], c);
      if rest.None? then None
      else
        assert s[rest.value + 1..] == s[..|s| - 1][rest.value + 1..] + [s[|s| - 1]];
        Some(rest.value)
  }

  /** The match decided by one scan: the first '@' must start the domain and the last '.' the top-level domain. */
  predicate EmailScan(t: string) {
    var at := IndexOf(t, '@');
    var dot := LastIndexOf(t, '.');
    at.Some? && dot.Some? && EmailSplitAt(t, at.value, dot.value)
  }

  /** The scan accepts exactly the strings the pattern matches. */
  lemma EmailScanCorrect(t: string)
    ensures EmailScan(t) <==> EmailMatches(t)
  {
    if EmailMatches(t) {
      var at, dot :| 0 <= at < |t| && 0 <= dot < |t| && EmailSplitAt(t, at, dot);
      assert '@' !in t[..at] by {
        forall k | 0 <= k < at ensures t[k] != '@' {
          assert t[..at][k] == t[k] && t[..at][k] in t[..at];
        }
      }
      assert '.' !in t[dot + 1..] by {
        forall k | dot + 1 <= k < |t| ensures t[k] != '.' {
          assert t[dot + 1..][k - dot - 1] == t[k] && t[dot + 1..][k - dot - 1] in t[dot + 1..];
        }
      }
    }
  }

  /**
   * `is_valid_email`: `re.match` of the anchored pattern; Python's `$` also matches before one
   * final newline, so a single trailing "\n" is tolerated.
   */
  predicate IsValidEmail(email: string) {
    EmailScan(email) || (|email| > 0 && email[|email| - 1] == '\n' && EmailScan(email[..|email| - 1]))
  }

  /** The accepted e-mails are those the pattern matches, with or without one final newline. */
  lemma IsValidEmailMeaning(email: string)
    ensures IsValidEmail(email) <==>
      EmailMatches(email) || (|email| > 0 && email[|email| - 1] == '\n' && EmailMatches(email[..|email| - 1]))
  {
    EmailScanCorrect(email);
    if |email| > 0 {
      EmailScanCorrect(email[..|email| - 1]);
    }
  }

  /** An address put together from a local part, a domain and a top-level domain of the right characters is accepted. */
  lemma EmailFromParts(local: string, domain: string, tld: string)
    requires local != [] && AllChars(local, LocalChar)
    requires domain != [] && AllChars(domain, DomainChar)
    requires |tld| >= 2 && AllChars(tld, IsAsciiLetter)
    ensures IsValidEmail(local + "@" + domain + "." + tld)
  {
    var t := local + "@" + domain + "." + tld;
    var at, dot := |local|, |local| + 1 + |domain|;
    assert t[..at] == local;
    assert t[at + 1..dot] == domain;
    assert t[dot + 1..] == tld;
    assert EmailSplitAt(t, at, dot);
    EmailScanCorrect(t);
  }

  /** Accepted: a plain address. */
  lemma EmailExamplePlain()
    ensures IsValidEmail("user@example.com")
  {
    assert "user@example.com" == "user" + "@" + "example" + "." + "com";
    EmailFromParts("user", "example", "com");
  }

  /** Accepted: dots in the local part and in the domain. */
  lemma EmailExampleDotted()
    ensures IsValidEmail("first.last@example.co.uk")
  {
    assert "first.last@example.co.uk" == "first.last" + "@" + "example.co" + "." + "uk";
    EmailFromParts("first.last", "example.co", "uk");
  }

  /** Accepted: a `+` tag in the local part. */
  lemma EmailExampleTagged()
    ensures IsValidEmail("user+tag@example.com")
  {
    assert "user+tag@example.com" == "user+tag" + "@" + "example" + "." + "com";
    EmailFromParts("user+tag", "example", "com");
  }

  /** Refused: no '@' at all. */
  lemma EmailExampleNoAt()
    ensures !IsValidEmail("invalid")
  {
    var s := "invalid";
    assert s[6] != '\n';
    assert forall k :: 0 <= k < |s| ==> s[k] != '@';
  }

  /** Refused: an empty local part. */
  lemma EmailExampleNoLocalPart()
    ensures !IsValidEmail("@example.com")
  {
    var s := "@example.com";
    assert s[|s| - 1] != '\n';
    assert IndexOf(s, '@') == Some(0);
  }

  /** Refused: no dot in the domain. */
  lemma EmailExampleNoTld()
    ensures !IsValidEmail("user@example")
  {
    var s := "user@example";
    assert s[|s| - 1] != '\n';
    assert forall k :: 0 <= k < |s| ==> s[k] != '.';
  }

  /** No character the scan accepts is a space. */
  lemma EmailScanNoSpace(t: string)
    requires EmailScan(t)
    ensures ' ' !in t
  {
    var at := IndexOf(t, '@').value;
    var dot := LastIndexOf(t, '.').value;
    forall k | 0 <= k < |t| ensures t[k] != ' ' {
      if k < at {
        assert t[..at][k] in t[..at];
      } else if at < k < dot {
        assert t[at + 1..dot][k - at - 1] in t[at + 1..dot];
      } else if dot < k {
        assert t[dot + 1..][k - dot - 1] in t[dot + 1..];
      }
    }
  }

  /** An accepted address never contains a space (the tolerated final newline is not one). */
  lemma IsValidEmailNoSpace(email: string)
    requires IsValidEmail(email)
    ensures ' ' !in email
  {
    if EmailScan(email) {
      EmailScanNoSpace(email);
    } else {
      EmailScanNoSpace(email[..|email| - 1]);
      assert email == email[..|email| - 1] + [email[|email| - 1]];
    }
  }

  /** Refused: a space in the local part. */
  lemma EmailExampleSpace()
    ensures !IsValidEmail("user @example.com")
  {
    var s := "user @example.com";
    assert s[4] == ' ';
    if IsValidEmail(s) {
      IsValidEmailNoSpace(s);
    }
  }

  // ---------------------------------------------------------------- validate_password_strength

  const PasswordTooShort: string := "Password must be at least 8 characters long"
  const PasswordNoLetter: string := "Password must contain at least one letter"
  const PasswordNoNumber: string := "Password must contain at least one number"

  /** `re.search(r"[a-zA-Z]", p)`. */
  predicate HasLetter(p: string) { exists i :: 0 <= i < |p| && IsAsciiLetter(p[i]) }

  /** `re.search(r"\d", p)`. */
  predicate HasDigit(p: string) { exists i :: 0 <= i < |p| && IsAsciiDigit(p[i]) }

  /** A password the application accepts: eight characters or more, with a letter and a digit. */
  predicate StrongPassword(p: string) { |p| >= 8 && HasLetter(p) && HasDigit(p) }

  /**
   * `validate_password_strength`: the unmet requirements, in the order length, letter, number.
   * (The optional upper-case and special-character checks only log.)
   */
  method ValidatePasswordStrength(password: string) returns (issues: seq<string>)
    ensures issues == [] <==> StrongPassword(password)
    ensures PasswordTooShort in issues <==> |password| < 8
    ensures PasswordNoLetter in issues <==> !HasLetter(password)
    ensures PasswordNoNumber in issues <==> !HasDigit(password)
    ensures issues == (if |password| < 8 then [PasswordTooShort] else [])
      + (if !HasLetter(password) then [PasswordNoLetter] else [])
      + (if !HasDigit(password) then [PasswordNoNumber] else [])
  {
    issues := [];
    if |password| < 8 {
      issues := issues + [PasswordTooShort];
    }
    if !HasLetter(password) {
      issues := issues + [PasswordNoLetter];
    }
    if !HasDigit(password) {
      issues := issues + [PasswordNoNumber];
    }
  }

  // ---------------------------------------------------------------- validate_recipe_completeness

  const TitleMissing: string := "Recipe must have a title"
  const YieldMissing: string := "Recipe must specify yield/servings"
  const NoIngredients: string := "Recipe must have at least one ingredient"
  const NoSteps: string := "Recipe must have at least one step"

  /** The AttributeError Python raises when a method is looked up on a value lacking it. */
  function NoAttribute(v: Value, name: string): string {
    "'" + TypeName(v) + "' object has no attribute '" + name + "'"
  }

  /** The TypeError `for x in v` raises on a value that is not iterable. */
  function NotIterable(v: Value): string {
    "'" + TypeName(v) + "' object is not iterable"
  }

  /**
   * `not v or not v.strip()`: whether a field counts as blank. A truthy value that is not a
   * string has no `strip` and raises.
   */
  function Blank(v: Value): Result<bool, string> {
    if !Truthy(v) then Ok(true)
    else if v.Str? then Ok(Strip(v.s) == [])
    else Err(NoAttribute(v, "strip"))
  }

  /** A field passes exactly when it is a string with a non-whitespace character; only a truthy non-string raises. */
  lemma BlankMeaning(v: Value)
    ensures Blank(v) == Ok(false) <==> v.Str? && !AllSpace(v.s)
    ensures Blank(v).Err? <==> Truthy(v) && !v.Str?
  {
    if v.Str? {
      StripEmptyIff(v.s);
    }
  }

  /**
   * What `enumerate(v)` walks over. A list yields its items; a string its one-character
   * strings; a dict its keys, which stand here as one string per key (each one is reported
   * invalid, whatever its text, so which key comes first does not matter).
   */
  function Elements(v: Value): (r: Result<seq<Value>, string>)
    ensures v.Arr? ==> r == Ok(v.items)
    ensures v.Str? ==> r.Ok? && |r.value| == |v.s| && forall k :: 0 <= k < |r.value| ==> r.value[k].Str?
    ensures v.Obj? ==> r.Ok? && |r.value| == |v.fields| && forall k :: 0 <= k < |r.value| ==> r.value[k].Str?
    ensures r.Err? <==> !(v.Arr? || v.Str? || v.Obj?)
  {
    match v
    case Arr(items) => Ok(items)
    case Str(s) => Ok(seq(|s|, k requires 0 <= k < |s| => Str([s[k]])))
    case Obj(fields) => Ok(seq(|fields|, k => Str("")))
    case _ => Err(NotIterable(v))
  }

  datatype ItemKind = Ingredient | Step

  /** "Ingredient 3" or "Step 3": an item named by its 1-based position. */
  function ItemLabel(kind: ItemKind, index: nat): string {
    (if kind == Ingredient then "Ingredient " else "Step ") + NatToDecimal(index + 1)
  }

  /** `isinstance(order, int) and not order < 1`: a bool is an int in Python, `True` is 1. */
  predicate ValidOrder(order: Value) {
    (order.Int? && order.i >= 1) || order == Bool(true)
  }

  /** The issue, if any, reported for the item at `index` (0-based) of a list of `kind`. */
  function ItemIssue(kind: ItemKind, index: nat, item: Value): Result<Option<string>, string> {
    if !item.Obj? then Ok(Some(ItemLabel(kind, index) + " is invalid"))
    else
      var blank := Blank(Get(item.fields, "text", Null));
      if blank.Err? then Err(blank.error)
      else if blank.value then Ok(Some(ItemLabel(kind, index) + " must have text"))
      else if kind == Step && !ValidOrder(Get(item.fields, "order", Null)) then
        Ok(Some(ItemLabel(kind, index) + " must have valid order number"))
      else Ok(None)
  }

  /** An item the check lets through: a dict with non-blank text and, for a step, an order of 1 or more. */
  predicate ItemComplete(kind: ItemKind, item: Value) {
    && item.Obj?
    && "text" in item.fields && item.fields["text"].Str? && !AllSpace(item.fields["text"].s)
    && (kind == Step ==> "order" in item.fields && ValidOrder(item.fields["order"]))
  }

  /** An item draws no issue and raises nothing exactly when it is complete. */
  lemma ItemIssueNone(kind: ItemKind, index: nat, item: Value)
    ensures ItemIssue(kind, index, item) == Ok(None) <==> ItemComplete(kind, item)
  {
    if item.Obj? {
      BlankMeaning(Get(item.fields, "text", Null));
    }
  }

  /** The check of one item given its index: the issue it reports, or the exception it raises. */
  type ItemCheck = (nat, Value) -> Result<Option<string>, string>

  /** The check `validate_recipe_completeness` applies to the items of a list of `kind`. */
  function CheckOf(kind: ItemKind): ItemCheck {
    (index: nat, item: Value) => ItemIssue(kind, index, item)
  }

  /** The issues of the first `n` items, in order; the first exception aborts the walk. */
  function Collect(check: ItemCheck, items: seq<Value>, n: nat): Result<seq<string>, string>
    requires n <= |items|
  {
    if n == 0 then Ok([])
    else
      var prev := Collect(check, items, n - 1);
      var last := check(n - 1, items[n - 1]);
      if prev.Err? then prev
      else if last.Err? then Err(last.error)
      else if last.value.Some? then Ok(prev.value + [last.value.value])
      else prev
  }

  /** The walk reports nothing exactly when no item's check reported or raised anything. */
  lemma {:induction false} CollectEmpty(check: ItemCheck, items: seq<Value>, n: nat)
    requires n <= |items|
    ensures Collect(check, items, n) == Ok([]) <==> forall k :: 0 <= k < n ==> check(k, items[k]) == Ok(None)
  {
    if n > 0 {
      CollectEmpty(check, items, n - 1);
    }
  }

  /** One more item: its exception aborts the walk, its issue is appended, or nothing changes. */
  lemma CollectNext(check: ItemCheck, items: seq<Value>, i: nat, issues: seq<string>)
    requires i < |items| && Collect(check, items, i) == Ok(issues)
    ensures var last := check(i, items[i]);
      Collect(check, items, i + 1) ==
        if last.Err? then Err(last.error) else if last.value.Some? then Ok(issues + [last.value.value]) else Ok(issues)
  {
  }

  /** Once the walk has raised, it stays raised with the same exception. */
  lemma {:induction false} CollectAbort(check: ItemCheck, items: seq<Value>, m: nat, n: nat)
    requires m <= n <= |items|
    requires Collect(check, items, m).Err?
    ensures Collect(check, items, n) == Collect(check, items, m)
  {
    if m < n {
      CollectAbort(check, items, m, n - 1);
    }
  }

  /** A list draws no issue and raises nothing exactly when every item is complete. */
  lemma ItemsIssuesEmpty(kind: ItemKind, items: seq<Value>)
    ensures Collect(CheckOf(kind), items, |items|) == Ok([]) <==> forall k :: 0 <= k < |items| ==> ItemComplete(kind, items[k])
  {
    CollectEmpty(CheckOf(kind), items, |items|);
    forall k | 0 <= k < |items| ensures ItemIssue(kind, k, items[k]) == Ok(None) <==> ItemComplete(kind, items[k]) {
      ItemIssueNone(kind, k, items[k]);
    }
  }

  /** The issues of one of the two lists, `recipe_data.get(key, [])`. */
  function SectionIssues(kind: ItemKind, section: Value, empty: string): Result<seq<string>, string> {
    if !Truthy(section) then Ok([empty])
    else
      var elements := Elements(section);
      if elements.Err? then Err(elements.error)
      else Collect(CheckOf(kind), elements.value, |elements.value|)
  }

  /**
   * `validate_recipe_completeness` as a value: `Ok(issues)`, or `Err(message)` of the
   * exception that a malformed document raises part-way through.
   */
  function CompletenessIssues(recipe: Object): Result<seq<string>, string> {
    var title := Blank(Get(recipe, "title", Null));
    if title.Err? then Err(title.error)
    else
      var yieldBlank := Blank(Get(recipe, "yield", Null));
      if yieldBlank.Err? then Err(yieldBlank.error)
      else
        var head := (if title.value then [TitleMissing] else []) + (if yieldBlank.value then [YieldMissing] else []);
        var ingredients := SectionIssues(Ingredient, Get(recipe, "ingredients", Arr([])), NoIngredients);
        if ingredients.Err? then Err(ingredients.error)
        else
          var steps := SectionIssues(Step, Get(recipe, "steps", Arr([])), NoSteps);
          if steps.Err? then Err(steps.error)
          else Ok(head + ingredients.value + steps.value)
  }

  /** A recipe with the minimum content: a title, a yield, and non-empty lists of complete items. */
  predicate Complete(recipe: Object) {
    && "title" in recipe && recipe["title"].Str? && !AllSpace(recipe["title"].s)
    && "yield" in recipe && recipe["yield"].Str? && !AllSpace(recipe["yield"].s)
    && "ingredients" in recipe && recipe["ingredients"].Arr? && recipe["ingredients"].items != []
    && (forall k :: 0 <= k < |recipe["ingredients"].items| ==> ItemComplete(Ingredient, recipe["ingredients"].items[k]))
    && "steps" in recipe && recipe["steps"].Arr? && recipe["steps"].items != []
    && (forall k :: 0 <= k < |recipe["steps"].items| ==> ItemComplete(Step, recipe["steps"].items[k]))
  }

  /** A section reports nothing exactly when it is a non-empty list of complete items. */
  lemma SectionIssuesEmpty(kind: ItemKind, section: Value, empty: string)
    ensures SectionIssues(kind, section, empty) == Ok([]) <==>
      section.Arr? && section.items != [] && forall k :: 0 <= k < |section.items| ==> ItemComplete(kind, section.items[k])
  {
    if Truthy(section) && Elements(section).Ok? {
      var elements := Elements(section).value;
      ItemsIssuesEmpty(kind, elements);
      if !section.Arr? {
        ItemIssueNone(kind, 0, elements[0]);
      }
    }
  }

  /** The check reports nothing exactly when each of its four parts reports nothing. */
  lemma CompletenessParts(recipe: Object)
    ensures CompletenessIssues(recipe) == Ok([]) <==>
      && Blank(Get(recipe, "title", Null)) == Ok(false) && Blank(Get(recipe, "yield", Null)) == Ok(false)
      && SectionIssues(Ingredient, Get(recipe, "ingredients", Arr([])), NoIngredients) == Ok([])
      && SectionIssues(Step, Get(recipe, "steps", Arr([])), NoSteps) == Ok([])
  {
    var title, yieldBlank := Blank(Get(recipe, "title", Null)), Blank(Get(recipe, "yield", Null));
    var ingredients := SectionIssues(Ingredient, Get(recipe, "ingredients", Arr([])), NoIngredients);
    var steps := SectionIssues(Step, Get(recipe, "steps", Arr([])), NoSteps);
    if title.Ok? && yieldBlank.Ok? && ingredients.Ok? && steps.Ok? {
      var head := (if title.value then [TitleMissing] else []) + (if yieldBlank.value then [YieldMissing] else []);
      assert CompletenessIssues(recipe) == Ok(head + ingredients.value + steps.value);
      assert |head + ingredients.value + steps.value| == |head| + |ingredients.value| + |steps.value|;
    }
  }

  /** A text field passes exactly when it is present and a string that is not all whitespace. */
  lemma TextFieldPasses(recipe: Object, key: string)
    ensures Blank(Get(recipe, key, Null)) == Ok(false) <==> key in recipe && recipe[key].Str? && !AllSpace(recipe[key].s)
  {
    BlankMeaning(Get(recipe, key, Null));
  }

  /** A list field passes exactly when it is present and a non-empty list of complete items. */
  lemma SectionPasses(kind: ItemKind, recipe: Object, key: string, empty: string)
    ensures SectionIssues(kind, Get(recipe, key, Arr([])), empty) == Ok([]) <==>
      && key in recipe && recipe[key].Arr? && recipe[key].items != []
      && forall k :: 0 <= k < |recipe[key].items| ==> ItemComplete(kind, recipe[key].items[k])
  {
    SectionIssuesEmpty(kind, Get(recipe, key, Arr([])), empty);
  }

  /** The check reports no issue and raises nothing exactly for the complete recipes. */
  lemma CompletenessIssuesEmpty(recipe: Object)
    ensures CompletenessIssues(recipe) == Ok([]) <==> Complete(recipe)
  {
    CompletenessParts(recipe);
    TextFieldPasses(recipe, "title");
    TextFieldPasses(recipe, "yield");
    SectionPasses(Ingredient, recipe, "ingredients", NoIngredients);
    SectionPasses(Step, recipe, "steps", NoSteps);
  }

  /**
   * One of the two blocks of `validate_recipe_completeness`: "<empty>" for a falsy section,
   * else one message per incomplete item, appended as the loop meets them.
   */
  method WalkSection(kind: ItemKind, section: Value, empty: string) returns (r: Result<seq<string>, string>)
    ensures r == SectionIssues(kind, section, empty)
  {
    if !Truthy(section) {
      return Ok([empty]);
    }
    var elements := Elements(section);
    if elements.Err? {
      return Err(elements.error);
    }
    r := WalkItems(CheckOf(kind), elements.value);
  }

  /**
   * The `for i, item in enumerate(...)` loop of a section, given the check of one item: the
   * issues in order, or the first exception.
   */
  method WalkItems(check: ItemCheck, items: seq<Value>) returns (r: Result<seq<string>, string>)
    ensures r == Collect(check, items, |items|)
  {
    var issues: seq<string> := [];
    var i := 0;
    while i < |items|
      invariant 0 <= i <= |items|
      invariant Collect(check, items, i) == Ok(issues)
    {
      var issue := check(i, items[i]);
      CollectNext(check, items, i, issues);
      if issue.Err? {
        CollectAbort(check, items, i + 1, |items|);
        return Err(issue.error);
      }
      if issue.value.Some? {
        issues := issues + [issue.value.value];
      }
      i := i + 1;
    }
    return Ok(issues);
  }

  /** `validate_recipe_completeness`: the title and yield checks, then the two list walks. */
  method ValidateRecipeCompleteness(recipe: Object) returns (r: Result<seq<string>, string>)
    ensures r == CompletenessIssues(recipe)
  {
    var issues: seq<string> := [];
    var title := Blank(Get(recipe, "title", Null));
    if title.Err? {
      return Err(title.error);
    }
    if title.value {
      issues := issues + [TitleMissing];
    }
    var yieldBlank := Blank(Get(recipe, "yield", Null));
    if yieldBlank.Err? {
      return Err(yieldBlank.error);
    }
    if yieldBlank.value {
      issues := issues + [YieldMissing];
    }
    ghost var head := (if title.value then [TitleMissing] else []) + (if yieldBlank.value then [YieldMissing] else []);
    assert issues == head;
    var ingredients := WalkSection(Ingredient, Get(recipe, "ingredients", Arr([])), NoIngredients);
    if ingredients.Err? {
      return Err(ingredients.error);
    }
    issues := issues + ingredients.value;
    var steps := WalkSection(Step, Get(recipe, "steps", Arr([])), NoSteps);
    if steps.Err? {
      return Err(steps.error);
    }
    issues := issues + steps.value;
    assert issues == head + ingredients.value + steps.value;
    return Ok(issues);
  }

  // ---------------------------------------------------------------- sanitize_recipe_data

  const TitleCap := 200
  const DescriptionCap := 500
  const YieldCap := 200
  const IngredientTextCap := 200
  const UnitCap := 50
  const CanonicalNameCap := 100
  const StepTextCap := 1000
  const TagCap := 50
  const MaxTags := 20
  const FileNameCap := 255

  /** `d[key] = sanitize_string(d[key], max_length=cap)` when `key` is present. */
  function CapKey(d: Object, key: string, cap: nat, clean: string -> string): (r: Object)
    requires cap > 0
    ensures r.Keys == d.Keys
    ensures forall k :: k in d && k != key ==> r[k] == d[k]
    ensures key in d ==> r[key].Str? && |r[key].s| <= cap
  {
    if key in d then d[key := Str(SanitizeString(d[key], Some(cap), clean))] else d
  }

  /** The top-level string fields: only a present, truthy value is rewritten. */
  function CapTruthy(d: Object, key: string, cap: nat, clean: string -> string): (r: Object)
    requires cap > 0
    ensures r.Keys == d.Keys
    ensures forall k :: k in d && k != key ==> r[k] == d[k]
    ensures key in d && Truthy(d[key]) ==> r[key].Str? && |r[key].s| <= cap
    ensures key in d && !Truthy(d[key]) ==> r[key] == d[key]
  {
    if key in d && Truthy(d[key]) then CapKey(d, key, cap, clean) else d
  }

  /** One ingredient after the loop body: a dict has its text, unit and canonical name capped. */
  function SanitizeIngredient(v: Value, clean: string -> string): (r: Value)
    ensures !v.Obj? ==> r == v
    ensures v.Obj? ==> r.Obj? && r.fields.Keys == v.fields.Keys
    ensures v.Obj? && "text" in v.fields ==> r.fields["text"].Str? && |r.fields["text"].s| <= IngredientTextCap
    ensures v.Obj? && "unit" in v.fields ==> r.fields["unit"].Str? && |r.fields["unit"].s| <= UnitCap
    ensures v.Obj? && "canonical_name" in v.fields ==> r.fields["canonical_name"].Str? && |r.fields["canonical_name"].s| <= CanonicalNameCap
  {
    if v.Obj? then
      Obj(CapKey(CapKey(CapKey(v.fields, "text", IngredientTextCap, clean), "unit", UnitCap, clean), "canonical_name", CanonicalNameCap, clean))
    else v
  }

  /** One step after the loop body: a dict has its text capped. */
  function SanitizeStep(v: Value, clean: string -> string): (r: Value)
    ensures !v.Obj? ==> r == v
    ensures v.Obj? ==> r.Obj? && r.fields.Keys == v.fields.Keys
    ensures v.Obj? && "text" in v.fields ==> r.fields["text"].Str? && |r.fields["text"].s| <= StepTextCap
  {
    if v.Obj? then Obj(CapKey(v.fields, "text", StepTextCap, clean)) else v
  }

  /** The strings among `values`, each mapped by `f`, in order: a comprehension filtered by `isinstance(t, str)`. */
  function MapStrings(f: Value -> Value, values: seq<Value>): (r: seq<Value>)
    ensures |r| <= |values|
  {
    if values == [] then []
    else
      var rest := MapStrings(f, values[1..]);
      if values[0].Str? then [f(values[0])] + rest else rest
  }

  /** When `f` always gives a string of at most `cap` characters, so does every mapped item. */
  lemma {:induction false} MapStringsBounded(f: Value -> Value, values: seq<Value>, cap: nat)
    requires forall v :: f(v).Str? && |f(v).s| <= cap
    ensures forall k :: 0 <= k < |MapStrings(f, values)| ==> MapStrings(f, values)[k].Str? && |MapStrings(f, values)[k].s| <= cap
  {
    if values != [] {
      var rest := MapStrings(f, values[1..]);
      MapStringsBounded(f, values[1..], cap);
      if values[0].Str? {
        var r := [f(values[0])] + rest;
        assert MapStrings(f, values) == r;
        forall k | 0 < k < |r| ensures r[k] == rest[k - 1] {}
      }
    }
  }

  /** A list of strings loses none of them. */
  lemma {:induction false} MapStringsLength(f: Value -> Value, values: seq<Value>)
    requires forall k :: 0 <= k < |values| ==> values[k].Str?
    ensures |MapStrings(f, values)| == |values|
  {
    if values != [] {
      MapStringsLength(f, values[1..]);
    }
  }

  /** In a list of strings, the string at `k` is mapped into place `k`. */
  lemma {:induction false} MapStringsAt(f: Value -> Value, values: seq<Value>, k: nat, v: Value)
    requires forall j :: 0 <= j < |values| ==> values[j].Str?
    requires k < |values| && values[k] == v
    ensures k < |MapStrings(f, values)| && MapStrings(f, values)[k] == f(v)
  {
    var rest := values[1..];
    var tail := MapStrings(f, rest);
    assert MapStrings(f, values) == [f(values[0])] + tail;
    if k > 0 {
      forall j | 0 <= j < |rest| ensures rest[j].Str? {
        assert rest[j] == values[j + 1];
      }
      assert rest[k - 1] == v;
      MapStringsAt(f, rest, k - 1, v);
    }
  }

  /** `sanitize_string(t, max_length=50)` on one tag. */
  function CleanTag(clean: string -> string): Value -> Value {
    t => Str(SanitizeString(t, Some(TagCap), clean))
  }

  /** `[sanitize_string(t, max_length=50) for t in tags if isinstance(t, str)]`. */
  function CleanTags(tags: seq<Value>, clean: string -> string): (r: seq<Value>)
    ensures |r| <= |tags|
  {
    MapStrings(CleanTag(clean), tags)
  }

  /** Every cleaned tag is a string of at most fifty characters. */
  lemma CleanTagsBounded(tags: seq<Value>, clean: string -> string)
    ensures forall k :: 0 <= k < |CleanTags(tags, clean)| ==>
      CleanTags(tags, clean)[k].Str? && |CleanTags(tags, clean)[k].s| <= TagCap
  {
    forall v ensures CleanTag(clean)(v).Str? && |CleanTag(clean)(v).s| <= TagCap {
      assert CleanTag(clean)(v) == Str(SanitizeString(v, Some(TagCap), clean));
    }
    MapStringsBounded(CleanTag(clean), tags, TagCap);
  }

  /** The string tags, each cleaned as one, keep their order. */
  lemma CleanTagsOfStrings(tags: seq<Value>, clean: string -> string)
    requires forall k :: 0 <= k < |tags| ==> tags[k].Str?
    ensures |CleanTags(tags, clean)| == |tags|
    ensures forall k :: 0 <= k < |tags| ==> CleanTags(tags, clean)[k] == Str(SanitizeString(tags[k], Some(TagCap), clean))
  {
    MapStringsLength(CleanTag(clean), tags);
    forall k | 0 <= k < |tags| ensures CleanTags(tags, clean)[k] == Str(SanitizeString(tags[k], Some(TagCap), clean)) {
      MapStringsAt(CleanTag(clean), tags, k, tags[k]);
    }
  }

  /** `... [:20]`: at most the first twenty cleaned tags. */
  function SanitizeTags(tags: seq<Value>, clean: string -> string): (r: seq<Value>)
    ensures |r| <= MaxTags
    ensures forall k :: 0 <= k < |r| ==> r[k].Str? && |r[k].s| <= TagCap
  {
    var cleaned := CleanTags(tags, clean);
    CleanTagsBounded(tags, clean);
    if |cleaned| <= MaxTags then cleaned else cleaned[..MaxTags]
  }

  /** The TypeError `re.match` raises when the subject is not a string. */
  function NotAString(v: Value): string {
    "expected string or bytes-like object, got '" + TypeName(v) + "'"
  }

  /**
   * The file-name half of the source rule: a present, truthy `file_name` goes through
   * `sanitize_filename(..., max_length=255)`; a truthy non-string has no `split` and raises.
   */
  function SanitizeFileNameField(source: Object): (r: Result<Object, string>)
    ensures r.Ok? ==> r.value.Keys == source.Keys
    ensures r.Ok? ==> forall k :: k in source && k != "file_name" ==> r.value[k] == source[k]
    ensures r.Err? <==> "file_name" in source && Truthy(source["file_name"]) && !source["file_name"].Str?
  {
    if "file_name" in source && Truthy(source["file_name"]) then
      var name := source["file_name"];
      if name.Str? then Ok(source["file_name" := Str(SanitizeFilename(name.s, FileNameCap))])
      else Err(NoAttribute(name, "split"))
    else Ok(source)
  }

  /**
   * The source rule as written: a present `url` is tested with `is_valid_url` and blanked if
   * it fails. The url is tested whatever its type, so a `None` url raises TypeError.
   */
  function SanitizeSourceAsWritten(source: Object, isValidUrl: string -> bool): Result<Object, string> {
    if "url" in source then
      var url := source["url"];
      if !url.Str? then Err(NotAString(url))
      else SanitizeFileNameField(if isValidUrl(url.s) then source else source["url" := Str("")])
    else SanitizeFileNameField(source)
  }

  /** The source rule as intended: only a string url is tested; an absent or null one is left alone. */
  function SanitizeSource(source: Object, isValidUrl: string -> bool): (r: Result<Object, string>)
    ensures r.Ok? ==> r.value.Keys == source.Keys
    ensures r.Ok? && "url" in source && source["url"].Str? ==>
      r.value["url"] == (if isValidUrl(source["url"].s) then source["url"] else Str(""))
    ensures r.Ok? && "url" in source && !source["url"].Str? ==> r.value["url"] == source["url"]
  {
    if "url" in source && source["url"].Str? && !isValidUrl(source["url"].s) then
      SanitizeFileNameField(source["url" := Str("")])
    else SanitizeFileNameField(source)
  }

  /** The keys whose values the field pass may rewrite (the source is handled last, apart). */
  predicate Rewritten(key: string) {
    key in {"title", "description", "yield", "ingredients", "steps", "tags"}
  }

  /** A top-level string field: rewritten and capped when truthy, left alone otherwise. */
  predicate TopCapped(recipe: Object, out: Object, key: string, cap: nat) {
    key in recipe ==>
      && key in out
      && (Truthy(recipe[key]) ==> out[key].Str? && |out[key].s| <= cap)
      && (!Truthy(recipe[key]) ==> out[key] == recipe[key])
  }

  /** Every ingredient dict has its text, unit and canonical name within their caps. */
  predicate IngredientsCapped(items: seq<Value>) {
    forall k :: 0 <= k < |items| && items[k].Obj? ==>
      && ("text" in items[k].fields ==> items[k].fields["text"].Str? && |items[k].fields["text"].s| <= IngredientTextCap)
      && ("unit" in items[k].fields ==> items[k].fields["unit"].Str? && |items[k].fields["unit"].s| <= UnitCap)
      && ("canonical_name" in items[k].fields ==> items[k].fields["canonical_name"].Str? && |items[k].fields["canonical_name"].s| <= CanonicalNameCap)
  }

  /** Every step dict has its text within its cap. */
  predicate StepsCapped(items: seq<Value>) {
    forall k :: 0 <= k < |items| && items[k].Obj? ==>
      "text" in items[k].fields ==> items[k].fields["text"].Str? && |items[k].fields["text"].s| <= StepTextCap
  }

  /** The rewritten lists keep their length and the kind of each item. */
  predicate SameShape(before: seq<Value>, after: seq<Value>) {
    |after| == |before| && forall k :: 0 <= k < |before| ==> (after[k].Obj? <==> before[k].Obj?)
  }

  /** The loop over `title`, `description` and `yield`. */
  function CapTop(recipe: Object, clean: string -> string): (r: Object)
    ensures r.Keys == recipe.Keys
    ensures forall key :: key in recipe && key !in {"title", "description", "yield"} ==> r[key] == recipe[key]
    ensures TopCapped(recipe, r, "title", TitleCap)
    ensures TopCapped(recipe, r, "description", DescriptionCap)
    ensures TopCapped(recipe, r, "yield", YieldCap)
  {
    CapTruthy(CapTruthy(CapTruthy(recipe, "title", TitleCap, clean), "description", DescriptionCap, clean), "yield", YieldCap, clean)
  }

  /** Every item of the ingredient list after the loop. */
  function SanitizeIngredients(items: seq<Value>, clean: string -> string): (r: seq<Value>)
    ensures SameShape(items, r) && IngredientsCapped(r)
  {
    seq(|items|, k requires 0 <= k < |items| => SanitizeIngredient(items[k], clean))
  }

  /** Every item of the step list after the loop. */
  function SanitizeSteps(items: seq<Value>, clean: string -> string): (r: seq<Value>)
    ensures SameShape(items, r) && StepsCapped(r)
  {
    seq(|items|, k requires 0 <= k < |items| => SanitizeStep(items[k], clean))
  }

  /** Rewrites `d[key]` when it is a list, through `f`; nothing else changes. */
  function MapList(d: Object, key: string, f: seq<Value> -> seq<Value>): (r: Object)
    ensures r.Keys == d.Keys
    ensures forall k :: k in d && k != key ==> r[k] == d[k]
    ensures key in d && d[key].Arr? ==> r[key] == Arr(f(d[key].items))
    ensures key in d && !d[key].Arr? ==> r[key] == d[key]
  {
    if key in d && d[key].Arr? then d[key := Arr(f(d[key].items))] else d
  }

  /** Every field of `sanitize_recipe_data` except the source, which the next step handles. */
  function SanitizedFields(recipe: Object, clean: string -> string): Object {
    var top := CapTop(recipe, clean);
    var withIngredients := MapList(top, "ingredients", items => SanitizeIngredients(items, clean));
    var withSteps := MapList(withIngredients, "steps", items => SanitizeSteps(items, clean));
    MapList(withSteps, "tags", items => SanitizeTags(items, clean))
  }

  /** `sanitize_recipe_data` with the source rule as intended. */
  function SanitizedRecipe(recipe: Object, clean: string -> string, isValidUrl: string -> bool): Result<Object, string> {
    var fields := SanitizedFields(recipe, clean);
    if "source" in fields && fields["source"].Obj? then
      var source := SanitizeSource(fields["source"].fields, isValidUrl);
      if source.Err? then Err(source.error) else Ok(fields["source" := Obj(source.value)])
    else Ok(fields)
  }

  /** `sanitize_recipe_data` with the source rule as written. */
  function SanitizedRecipeAsWritten(recipe: Object, clean: string -> string, isValidUrl: string -> bool): Result<Object, string> {
    var fields := SanitizedFields(recipe, clean);
    if "source" in fields && fields["source"].Obj? then
      var source := SanitizeSourceAsWritten(fields["source"].fields, isValidUrl);
      if source.Err? then Err(source.error) else Ok(fields["source" := Obj(source.value)])
    else Ok(fields)
  }

  /** `sanitize_recipe_data` adds and removes no key, and changes only the keys it sanitises. */
  lemma SanitizedFieldsKeys(recipe: Object, clean: string -> string)
    ensures SanitizedFields(recipe, clean).Keys == recipe.Keys
    ensures forall key :: key in recipe && !Rewritten(key) ==> SanitizedFields(recipe, clean)[key] == recipe[key]
  {
  }

  /** Title and yield end up at most 200 characters long and the description 500, when truthy. */
  lemma SanitizedFieldsTopCaps(recipe: Object, clean: string -> string)
    ensures TopCapped(recipe, SanitizedFields(recipe, clean), "title", TitleCap)
    ensures TopCapped(recipe, SanitizedFields(recipe, clean), "description", DescriptionCap)
    ensures TopCapped(recipe, SanitizedFields(recipe, clean), "yield", YieldCap)
  {
  }

  /**
   * Ingredient text at most 200 characters, unit 50, canonical name 100; step text 1000; at
   * most 20 tags of at most 50 characters. Lists keep their length and the kind of each item.
   */
  lemma SanitizedFieldsListCaps(recipe: Object, clean: string -> string)
    ensures "ingredients" in recipe && recipe["ingredients"].Arr? ==>
      var out := SanitizedFields(recipe, clean)["ingredients"];
      out.Arr? && SameShape(recipe["ingredients"].items, out.items) && IngredientsCapped(out.items)
    ensures "steps" in recipe && recipe["steps"].Arr? ==>
      var out := SanitizedFields(recipe, clean)["steps"];
      out.Arr? && SameShape(recipe["steps"].items, out.items) && StepsCapped(out.items)
    ensures "tags" in recipe && recipe["tags"].Arr? ==>
      var out := SanitizedFields(recipe, clean)["tags"];
      out.Arr? && |out.items| <= MaxTags && forall k :: 0 <= k < |out.items| ==> out.items[k].Str? && |out.items[k].s| <= TagCap
  {
    var top := CapTop(recipe, clean);
    var withIngredients := MapList(top, "ingredients", items => SanitizeIngredients(items, clean));
    var withSteps := MapList(withIngredients, "steps", items => SanitizeSteps(items, clean));
    var out := MapList(withSteps, "tags", items => SanitizeTags(items, clean));
    assert out == SanitizedFields(recipe, clean);
    if "ingredients" in recipe && recipe["ingredients"].Arr? {
      var items := recipe["ingredients"].items;
      assert top["ingredients"] == recipe["ingredients"];
      assert withIngredients["ingredients"] == Arr(SanitizeIngredients(items, clean));
      assert out["ingredients"] == withSteps["ingredients"] == withIngredients["ingredients"];
    }
    if "steps" in recipe && recipe["steps"].Arr? {
      var items := recipe["steps"].items;
      assert withIngredients["steps"] == top["steps"] == recipe["steps"];
      assert withSteps["steps"] == Arr(SanitizeSteps(items, clean));
      assert out["steps"] == withSteps["steps"];
    }
    if "tags" in recipe && recipe["tags"].Arr? {
      var items := recipe["tags"].items;
      assert withSteps["tags"] == withIngredients["tags"] == top["tags"] == recipe["tags"];
      assert out["tags"] == Arr(SanitizeTags(items, clean));
    }
  }

  /**
   * `sanitize_recipe_data` (with the source rule as intended): the three string fields, then a
   * loop rewriting each ingredient dict and a loop rewriting each step dict, then the tags and
   * the source.
   */
  method SanitizeRecipeData(recipe: Object, clean: string -> string, isValidUrl: string -> bool) returns (r: Result<Object, string>)
    ensures r == SanitizedRecipe(recipe, clean, isValidUrl)
  {
    var sanitized := CapTop(recipe, clean);
    ghost var top := sanitized;
    if "ingredients" in sanitized && sanitized["ingredients"].Arr? {
      var items := SanitizeIngredientsInPlace(sanitized["ingredients"].items, clean);
      sanitized := sanitized["ingredients" := Arr(items)];
    }
    assert sanitized == MapList(top, "ingredients", items => SanitizeIngredients(items, clean));
    ghost var withIngredients := sanitized;
    if "steps" in sanitized && sanitized["steps"].Arr? {
      var items := SanitizeStepsInPlace(sanitized["steps"].items, clean);
      sanitized := sanitized["steps" := Arr(items)];
    }
    assert sanitized == MapList(withIngredients, "steps", items => SanitizeSteps(items, clean));
    if "tags" in sanitized && sanitized["tags"].Arr? {
      sanitized := sanitized["tags" := Arr(SanitizeTags(sanitized["tags"].items, clean))];
    }
    assert sanitized == SanitizedFields(recipe, clean);
    if "source" in sanitized && sanitized["source"].Obj? {
      var source := SanitizeSource(sanitized["source"].fields, isValidUrl);
      if source.Err? {
        return Err(source.error);
      }
      sanitized := sanitized["source" := Obj(source.value)];
    }
    return Ok(sanitized);
  }

  /** The loop `for ingredient in sanitized["ingredients"]`, rewriting each dict in its place. */
  method SanitizeIngredientsInPlace(original: seq<Value>, clean: string -> string) returns (items: seq<Value>)
    ensures items == SanitizeIngredients(original, clean)
  {
    items := original;
    var i := 0;
    while i < |items|
      invariant 0 <= i <= |items| == |original|
      invariant forall k :: 0 <= k < i ==> items[k] == SanitizeIngredient(original[k], clean)
      invariant forall k :: i <= k < |items| ==> items[k] == original[k]
    {
      items := items[i := SanitizeIngredient(items[i], clean)];
      i := i + 1;
    }
  }

  /** The loop `for step in sanitized["steps"]`, rewriting each dict in its place. */
  method SanitizeStepsInPlace(original: seq<Value>, clean: string -> string) returns (items: seq<Value>)
    ensures items == SanitizeSteps(original, clean)
  {
    items := original;
    var i := 0;
    while i < |items|
      invariant 0 <= i <= |items| == |original|
      invariant forall k :: 0 <= k < i ==> items[k] == SanitizeStep(original[k], clean)
      invariant forall k :: i <= k < |items| ==> items[k] == original[k]
    {
      items := items[i := SanitizeStep(items[i], clean)];
      i := i + 1;
    }
  }

  /** The tested behaviour of `is_valid_url`, the only facts the model assumes of that pattern. */
  predicate UrlCheckAsTested(isValidUrl: string -> bool) {
    && isValidUrl("https://example.com")
    && isValidUrl("http://example.com/path/to/page")
    && isValidUrl("https://sub.example.com:8080/page?param=value")
    && !isValidUrl("javascript:alert('xss')")
    && !isValidUrl("ftp://example.com")
    && !isValidUrl("example.com")
    && !isValidUrl("http://")
  }

  /** With a string url or none at all, the rule as written and as intended agree. */
  lemma SanitizeSourceAgrees(source: Object, isValidUrl: string -> bool)
    requires "url" !in source || source["url"].Str?
    ensures SanitizeSourceAsWritten(source, isValidUrl) == SanitizeSource(source, isValidUrl)
  {
  }

  /** As written, the source rule raises exactly for a non-string url or a truthy non-string file name. */
  lemma SanitizeSourceAsWrittenFails(source: Object, isValidUrl: string -> bool)
    ensures SanitizeSourceAsWritten(source, isValidUrl).Err? <==>
      ("url" in source && !source["url"].Str?)
      || ("file_name" in source && Truthy(source["file_name"]) && !source["file_name"].Str?)
  {
  }

  /** The intended rule never raises on a source the schema admits (string or null url and file name). */
  lemma SanitizeSourceTotal(source: Object, isValidUrl: string -> bool)
    requires OptionalStr(source, "url") && OptionalStr(source, "file_name")
    ensures SanitizeSource(source, isValidUrl).Ok?
  {
  }

  /**
   * The source of a recipe submitted without a url, as pydantic's `model_dump` hands it over:
   * the optional fields are present with the value None.
   */
  const UrlLessRecipe: Object := map["source" := Obj(map["type" := Str("text"), "url" := Null, "file_name" := Null])]

  /** As written, such a recipe makes `sanitize_recipe_data` raise TypeError; as intended it passes. */
  lemma UrlLessSourceRaises(clean: string -> string, isValidUrl: string -> bool)
    ensures SanitizedRecipeAsWritten(UrlLessRecipe, clean, isValidUrl) == Err("expected string or bytes-like object, got 'NoneType'")
    ensures SanitizedRecipe(UrlLessRecipe, clean, isValidUrl).Ok?
  {
    var fields := SanitizedFields(UrlLessRecipe, clean);
    SanitizedFieldsKeys(UrlLessRecipe, clean);
    assert !Rewritten("source");
    assert fields["source"] == UrlLessRecipe["source"];
    assert SanitizeSourceAsWritten(fields["source"].fields, isValidUrl) == Err(NotAString(Null));
    assert NotAString(Null) == "expected string or bytes-like object, got 'NoneType'";
  }

  /** The tested script url is blanked. */
  lemma ScriptUrlBlanked(source: Object, isValidUrl: string -> bool)
    requires UrlCheckAsTested(isValidUrl)
    requires "url" in source && source["url"] == Str("javascript:alert('xss')")
    requires OptionalStr(source, "file_name")
    ensures SanitizeSource(source, isValidUrl).Ok?
    ensures SanitizeSource(source, isValidUrl).value["url"] == Str("")
  {
  }
}

/**
 * The recursive sanitizer the recorder applies to everything it keeps, once when an entry is
 * recorded and again when the log is written (backend/app/agents/observability.py).
 */
module JsonSanitizer {
  import opened Options
  import opened TextTools

  datatype Json =
    | Null
    | Bool(b: bool)
    | Num(n: int)
    | Str(s: string)
    | Arr(items: seq<Json>)
    | Obj(fields: seq<Field>)

  /** One entry of a dict, in insertion order. */
  datatype Field = Field(key: string, value: Json)

  const MAX_STRING_CHARS := 2000
  const MAX_COLLECTION_ITEMS := 20
  const TRUNCATED := "... [truncated]"
  const REDACTED := "[redacted]"
  const EXEMPT_KEYS: set<string> := {
    "token_usage", "token_usage_delta", "token_usage_total", "token_usage_scope",
    "input_tokens", "output_tokens", "total_tokens", "prompt_tokens", "completion_tokens"}

  predicate IsSensitiveKey(key: string) {
    var lowered := Lower(key);
    lowered !in EXEMPT_KEYS
    && (Contains(lowered, "key") || Contains(lowered, "token") || Contains(lowered, "secret")
       || Contains(lowered, "password"))
  }

  function BoundedText(value: string, limit: nat): string
    requires |TRUNCATED| <= limit
  {
    var text := Strip(value);
    if |text| <= limit then text else TrimRight(text[..limit - |TRUNCATED|]) + TRUNCATED
  }

  function Kept(size: nat): nat { if size < MAX_COLLECTION_ITEMS then size else MAX_COLLECTION_ITEMS }

  function Sanitize(v: Json): Json
    decreases v
  {
    match v
    case Str(s) => Str(BoundedText(s, MAX_STRING_CHARS))
    case Arr(items) => Arr(seq(Kept(|items|), k requires 0 <= k < |items| => Sanitize(items[k])))
    case Obj(fields) =>
      Obj(seq(Kept(|fields|), k requires 0 <= k < |fields| =>
        Field(fields[k].key, if IsSensitiveKey(fields[k].key) then Str(REDACTED) else Sanitize(fields[k].value))))
    case _ => v
  }

  /** What the sanitizer promises, at every depth. */
  predicate Clean(v: Json)
    decreases v
  {
    match v
    case Str(s) => Trimmed(s) && |s| <= MAX_STRING_CHARS
    case Arr(items) => |items| <= MAX_COLLECTION_ITEMS && forall k | 0 <= k < |items| :: Clean(items[k])
    case Obj(fields) =>
      && |fields| <= MAX_COLLECTION_ITEMS
      && forall k | 0 <= k < |fields| ::
           if IsSensitiveKey(fields[k].key) then fields[k].value == Str(REDACTED) else Clean(fields[k].value)
    case _ => true
  }

  lemma {:induction false} BoundedTextFits(value: string, limit: nat)
    requires |TRUNCATED| <= limit
    ensures var r := BoundedText(value, limit); Trimmed(r) && |r| <= limit
    ensures BoundedText(value, limit) == value <==> Trimmed(value) && |value| <= limit
  {
  }

  lemma {:induction false} SanitizedIsClean(v: Json)
    ensures Clean(Sanitize(v))
    decreases v
  {
    match v
    case Str(s) => BoundedTextFits(s, MAX_STRING_CHARS);
    case Arr(items) =>
      forall k | 0 <= k < Kept(|items|) ensures Clean(Sanitize(v).items[k]) { SanitizedIsClean(items[k]); }
    case Obj(fields) =>
      forall k | 0 <= k < Kept(|fields|) && !IsSensitiveKey(fields[k].key)
        ensures Clean(Sanitize(v).fields[k].value)
      {
        SanitizedIsClean(fields[k].value);
      }
    case _ =>
  }

  // ---- what may never be written ----

  /** The nine names of token counts. */
  ghost predicate NamesATokenCount(key: string) {
    || (exists tail :: tail in {"", "_delta", "_total", "_scope"} && key == "token_usage" + tail)
    || (exists head :: head in {"input", "output", "total", "prompt", "completion"} && key == head + "_tokens")
  }

  lemma {:induction false} ExemptNamesTokenCounts(key: string)
    ensures key in EXEMPT_KEYS <==> NamesATokenCount(key)
  {
    assert "token_usage" + "" == "token_usage" && "token_usage" + "_delta" == "token_usage_delta";
    assert "token_usage" + "_total" == "token_usage_total" && "token_usage" + "_scope" == "token_usage_scope";
    assert "input" + "_tokens" == "input_tokens" && "output" + "_tokens" == "output_tokens";
    assert "total" + "_tokens" == "total_tokens" && "prompt" + "_tokens" == "prompt_tokens";
    assert "completion" + "_tokens" == "completion_tokens";
  }

  /** The value that a path of item and field positions leads to. */
  ghost function At(v: Json, path: seq<nat>): Option<Json> {
    if path == [] then Some(v)
    else if v.Arr? && path[0] < |v.items| then At(v.items[path[0]], path[1..])
    else if v.Obj? && path[0] < |v.fields| then At(v.fields[path[0]].value, path[1..])
    else None
  }

  /** A key is sensitive exactly if one of four words stands in it, in any case, and it is no token count. */
  lemma {:induction false} IsSensitiveIff(key: string)
    ensures IsSensitiveKey(key) <==>
            && !NamesATokenCount(Lower(key))
            && exists word, i: nat :: word in {"key", "token", "secret", "password"} && StandsAt(Lower(key), word, i)
  {
    ExemptNamesTokenCounts(Lower(key));
    ContainsIff(Lower(key), "key");
    ContainsIff(Lower(key), "token");
    ContainsIff(Lower(key), "secret");
    ContainsIff(Lower(key), "password");
  }

  lemma {:induction false} CleanAtEveryDepth(v: Json, path: seq<nat>)
    requires Clean(v) && At(v, path).Some?
    ensures Clean(At(v, path).value)
  {
    if path != [] {
      if v.Arr? {
        CleanAtEveryDepth(v.items[path[0]], path[1..]);
      } else if IsSensitiveKey(v.fields[path[0]].key) {
        assert At(v.fields[path[0]].value, path[1..]).Some?;
        assert path[1..] == [];
      } else {
        CleanAtEveryDepth(v.fields[path[0]].value, path[1..]);
      }
    }
  }

  /**
   * No secret is ever written: wherever an object stands in a sanitized value, a field whose lower-cased
   * key has one of the four words anywhere in it, and is no token counter, holds the redaction mark.
   */
  lemma {:induction false} SecretsAreRedactedAtEveryDepth(
    v: Json, path: seq<nat>, k: nat, before: string, word: string, after: string)
    requires At(Sanitize(v), path).Some? && At(Sanitize(v), path).value.Obj?
    requires k < |At(Sanitize(v), path).value.fields| && word in {"key", "token", "secret", "password"}
    requires var key := Lower(At(Sanitize(v), path).value.fields[k].key);
             key == before + word + after && !NamesATokenCount(key)
    ensures At(Sanitize(v), path).value.fields[k].value == Str("[redacted]")
  {
    ContainsWhole(before, word, after);
    ExemptNamesTokenCounts(before + word + after);
    SanitizedIsClean(v);
    CleanAtEveryDepth(Sanitize(v), path);
  }

  /**
   * And nothing else is lost but what is too long: a sanitized value has the shape of the original, level
   * by level, with the first twenty items or fields, and every other field keeps its key and content.
   */
  ghost predicate Excerpt(v: Json, r: Json)
    decreases r
  {
    match v
    case Str(s) => r.Str? && ShortForm(Strip(s), r.s)
    case Arr(items) =>
      && r.Arr? && |r.items| == (if |items| < 20 then |items| else 20)
      && forall k :: 0 <= k < |r.items| ==> Excerpt(items[k], r.items[k])
    case Obj(fields) =>
      && r.Obj? && |r.fields| == (if |fields| < 20 then |fields| else 20)
      && forall k :: 0 <= k < |r.fields| ==>
           && r.fields[k].key == fields[k].key
           && (if IsSensitiveKey(fields[k].key) then r.fields[k].value == Str("[redacted]")
               else Excerpt(fields[k].value, r.fields[k].value))
    case _ => r == v
  }

  /** The text itself if it has at most 2000 characters, else a beginning of it and a mark. */
  ghost predicate ShortForm(text: string, r: string) {
    if |text| <= 2000 then r == text
    else
      && |r| <= 2000 && EndsWith(r, "... [truncated]") && r[..|r| - 15] <= text
      && forall k :: |r| - 15 <= k < 1985 ==> IsSpace(text[k])
  }

  lemma {:induction false} SanitizedIsAnExcerpt(v: Json)
    ensures Excerpt(v, Sanitize(v))
    decreases v
  {
    match v
    case Str(s) =>
      if |Strip(s)| > 2000 {
        TrimRightDropsSpace(Strip(s)[..1985]);
        var short := TrimRight(Strip(s)[..1985]);
        assert (short + TRUNCATED)[|short|..] == TRUNCATED && (short + TRUNCATED)[..|short|] == short;
      }
    case Arr(items) =>
      forall k | 0 <= k < Kept(|items|) ensures Excerpt(items[k], Sanitize(v).items[k]) {
        SanitizedIsAnExcerpt(items[k]);
      }
    case Obj(fields) =>
      forall k | 0 <= k < Kept(|fields|) && !IsSensitiveKey(fields[k].key)
        ensures Excerpt(fields[k].value, Sanitize(v).fields[k].value)
      {
        SanitizedIsAnExcerpt(fields[k].value);
      }
    case _ =>
  }

  /** The clean values are exactly the ones sanitizing leaves alone. */
  lemma {:induction false} CleanIsFixed(v: Json)
    ensures Clean(v) <==> Sanitize(v) == v
    decreases v
  {
    if Sanitize(v) == v {
      SanitizedIsClean(v);
    }
    if Clean(v) {
      match v
      case Str(s) => BoundedTextFits(s, MAX_STRING_CHARS);
      case Arr(items) =>
        forall k | 0 <= k < |items| ensures Sanitize(items[k]) == items[k] { CleanIsFixed(items[k]); }
        assert Sanitize(v).items == items;
      case Obj(fields) =>
        forall k | 0 <= k < |fields| ensures Sanitize(v).fields[k] == fields[k] {
          if !IsSensitiveKey(fields[k].key) { CleanIsFixed(fields[k].value); }
        }
        assert Sanitize(v).fields == fields;
      case _ =>
    }
  }

  /** Sanitizing what was already sanitized changes nothing. */
  lemma {:induction false} SanitizeIsIdempotent(v: Json)
    ensures Sanitize(Sanitize(v)) == Sanitize(v)
  {
    SanitizedIsClean(v);
    CleanIsFixed(Sanitize(v));
  }

  /** `dict.get`: the value under a key, if the object has it. */
  function Get(fields: seq<Field>, key: string): Option<Json> {
    if fields == [] then None
    else if fields[0].key == key then Some(fields[0].value)
    else Get(fields[1..], key)
  }

  function GetIn(v: Json, key: string): Option<Json> {
    if v.Obj? then Get(v.fields, key) else None
  }

  /** Reading a key of a sanitized object that was small enough to keep every field. */
  lemma {:induction false} GetOfSanitized(fields: seq<Field>, key: string)
    requires |fields| <= MAX_COLLECTION_ITEMS
    ensures Get(Sanitize(Obj(fields)).fields, key)
         == match Get(fields, key)
            case None => None
            case Some(v) => Some(if IsSensitiveKey(key) then Str(REDACTED) else Sanitize(v))
  {
    if fields != [] {
      assert Sanitize(Obj(fields)).fields[1..] == Sanitize(Obj(fields[1..])).fields;
      GetOfSanitized(fields[1..], key);
    }
  }
}

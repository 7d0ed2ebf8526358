/** The interface language: Spanish or English, a translation lookup by
    dotted key in that language's nested table, and the locale code used to
    format dates and numbers. */
module LanguageContext {
  import opened Common
  import opened Strings

  datatype Language = Es | En

  /** The value stored for a language ('es' or 'en'). */
  function Name(l: Language): string {
    match l
    case Es => "es"
    case En => "en"
  }

  /** `languageCode`. */
  function LanguageCode(l: Language): (code: string)
    ensures l == Es ==> code == "es-ES"
    ensures l == En ==> code == "en-US"
  {
    if l == Es then "es-ES" else "en-US"
  }

  /** The language a stored value selects: only 'es' and 'en' are adopted;
      anything else, or nothing stored, keeps the current language. */
  function Adopt(current: Language, stored: Option<string>): (l: Language)
    ensures stored == Some("es") ==> l == Es
    ensures stored == Some("en") ==> l == En
    ensures stored != Some("es") && stored != Some("en") ==> l == current
  {
    if stored == Some("es") then Es
    else if stored == Some("en") then En
    else current
  }

  /** A language written by `setLanguage` is adopted again on the next
      visit. */
  lemma StoredLanguageRestored(current: Language, l: Language)
    ensures Adopt(current, Some(Name(l))) == l
  {
  }

  /** A JSON value of a translation table. Numbers, booleans and arrays only
      matter in that they are not strings, so they share one case. */
  datatype Json = JString(text: string) | JObject(fields: map<string, Json>) | JNull | JOther

  /** What a property access yields: a JSON value or `undefined`. */
  datatype Value = Defined(json: Json) | Undefined

  /** `value[k]`: a field of an object, and `undefined` for a missing field
      or for a property of a string or other non-object value. */
  function Index(v: Json, k: string): (r: Value)
    ensures r.Defined? <==> v.JObject? && k in v.fields
  {
    if v.JObject? && k in v.fields then Defined(v.fields[k]) else Undefined
  }

  /** Accessing a property of `undefined` or `null` throws. */
  predicate Throws(v: Value) {
    v.Undefined? || v.json.JNull?
  }

  /** How the walk along a path ends: it throws, or it reaches a value. */
  datatype Walked = Threw | Reached(value: Value)

  /** The table holds `leaf` under the path: each key before the end names
      a field of a nested object, whatever other fields those objects have. */
  predicate Stores(table: Json, path: seq<string>, leaf: Json)
    decreases |path|
  {
    if path == [] then table == leaf
    else table.JObject? && path[0] in table.fields && Stores(table.fields[path[0]], path[1..], leaf)
  }

  /** The walk `for (const k of keys) value = value[k]`. A walk from a value
      that reaches a value found what the table stores under the path. */
  function Walk(v: Value, keys: seq<string>): (w: Walked)
    ensures v.Defined? && w.Reached? && w.value.Defined? ==> Stores(v.json, keys, w.value.json)
    decreases |keys|
  {
    if keys == [] then Reached(v)
    else if Throws(v) then Threw
    else Walk(Index(v.json, keys[0]), keys[1..])
  }

  /** The `reduce` over the replacement entries: each `{{k}}` placeholder is
      replaced by its value, entry by entry, first occurrence only. Entries
      whose placeholders do not occur leave the text as it is. */
  function ApplyReplacements(text: string, entries: seq<(string, string)>): (r: string)
    ensures (forall i | 0 <= i < |entries| :: !Contains(text, "{{" + entries[i].0 + "}}")) ==> r == text
    decreases |entries|
  {
    if entries == [] then text
    else
      ReplaceFirstReplaces(text, "{{" + entries[0].0 + "}}", entries[0].1);
      ApplyReplacements(ReplaceFirst(text, "{{" + entries[0].0 + "}}", entries[0].1), entries[1..])
  }

  /** The text `t` returns for a string found in the table. */
  function Fill(text: string, replacements: Option<seq<(string, string)>>): string {
    if replacements.Some? then ApplyReplacements(text, replacements.value) else text
  }

  /** `t(key, replacements)` on a language's table: the string at the end of
      the dotted path with its placeholders filled in, or the key itself
      when the path throws or ends at anything but a string. */
  function Translate(table: Json, key: string, replacements: Option<seq<(string, string)>>): (r: string)
    ensures r == key || exists text :: Stores(table, Split(key, '.'), JString(text)) && r == Fill(text, replacements)
  {
    match Walk(Defined(table), Split(key, '.'))
    case Reached(Defined(JString(text))) => Fill(text, replacements)
    case _ => key
  }

  /** The walk reaches the end of the path exactly when no key before the last
      meets `undefined` or `null`. */
  lemma {:induction false} WalkSteps(v: Value, keys: seq<string>, i: nat)
    requires i < |keys|
    requires !Throws(v)
    ensures Walk(v, keys[i..]) == Walk(Index(v.json, keys[i]), keys[i + 1..])
  {
    assert keys[i..][1..] == keys[i + 1..];
  }

  /** The body of `t`: walk the path with a loop, then fill in the
      placeholders. */
  method T(table: Json, key: string, replacements: Option<seq<(string, string)>>) returns (r: string)
    ensures r == Translate(table, key, replacements)
  {
    var keys := Split(key, '.');
    var value := Defined(table);
    for i := 0 to |keys|
      invariant Walk(Defined(table), keys) == Walk(value, keys[i..])
    {
      if Throws(value) {
        return key;
      }
      WalkSteps(value, keys, i);
      value := Index(value.json, keys[i]);
    }
    assert keys[|keys|..] == [];
    if !(value.Defined? && value.json.JString?) {
      return key;
    }
    r := value.json.text;
    if replacements.Some? {
      r := ApplyReplacements(r, replacements.value);
    }
  }

  /** Walking a path that the table stores reaches the stored value. */
  lemma {:induction false} WalkStored(table: Json, path: seq<string>, leaf: Json)
    requires Stores(table, path, leaf)
    ensures Walk(Defined(table), path) == Reached(Defined(leaf))
    decreases |path|
  {
    if path != [] {
      WalkStored(table.fields[path[0]], path[1..], leaf);
    }
  }

  /** A string stored under the dotted path of a key, in a table with any
      other entries, is what `t` returns for that key, its placeholders
      filled in. */
  lemma TranslateFindsString(table: Json, key: string, text: string, replacements: Option<seq<(string, string)>>)
    requires Stores(table, Split(key, '.'), JString(text))
    ensures Translate(table, key, replacements) == Fill(text, replacements)
  {
    WalkStored(table, Split(key, '.'), JString(text));
  }

  /** A path that ends at an object, a number or null gives back the key. */
  lemma TranslateNonStringIsKey(table: Json, key: string, leaf: Json, replacements: Option<seq<(string, string)>>)
    requires !leaf.JString?
    requires Stores(table, Split(key, '.'), leaf)
    ensures Translate(table, key, replacements) == key
  {
    WalkStored(table, Split(key, '.'), leaf);
  }

  /** A key whose first segment is missing from the table gives back the key:
      either the walk ends at `undefined` or the next step throws. */
  lemma TranslateMissingIsKey(fields: map<string, Json>, key: string, replacements: Option<seq<(string, string)>>)
    requires Split(key, '.')[0] !in fields
    ensures Translate(JObject(fields), key, replacements) == key
  {
    var keys := Split(key, '.');
    assert Walk(Defined(JObject(fields)), keys) == Walk(Undefined, keys[1..]);
  }

  /** One replacement fills in the first occurrence of its placeholder. */
  lemma OneReplacement(text: string, k: string, v: string, i: nat)
    requires OccursAt(text, "{{" + k + "}}", i) && IsFirst(text, "{{" + k + "}}", i)
    ensures ApplyReplacements(text, [(k, v)]) == text[..i] + v + text[i + |k| + 4..]
  {
    ReplaceFirstReplaces(text, "{{" + k + "}}", v);
  }

  /** The provider's state. The stored value is the `localStorage` entry,
      passed in and returned rather than read and written. */
  class LanguageProvider {
    var language: Language

    constructor ()
      ensures language == Es
    {
      language := Es;
    }

    /** The mount effect: adopt a stored 'es' or 'en'. */
    method LoadStored(stored: Option<string>)
      modifies this
      ensures language == Adopt(old(language), stored)
    {
      if stored == Some("es") || stored == Some("en") {
        language := if stored == Some("es") then Es else En;
      }
    }

    /** `setLanguage`: switch, and return the value to store. */
    method SetLanguage(l: Language) returns (stored: string)
      modifies this
      ensures language == l && stored == Name(l)
    {
      language := l;
      stored := Name(l);
    }
  }
}

/**
 * The plugin's settings: the stored JSON object decoded and merged over fixed
 * defaults, and the lookups the request handler makes in the result.
 */
module Settings {
  import opened Php

  /** What a settings array looks like once decoded: keys to PHP values. */
  type SettingsMap = map<string, Value>

  /** The defaults every missing key takes. */
  const Defaults: SettingsMap := map[
    "key" := Null,
    "ip" := Null,
    "query" := Str("users"),
    "blog_id" := Int(1),
    "form_id" := Int(0),
    "max" := Int(100)]

  /**
   * The settings built from the decoded stored option: a decoded value that
   * is not an array is replaced by the empty array, and wp_parse_args merges
   * it over the defaults, stored entries taking precedence.
   */
  function ParseArgs(decoded: Value): (s: SettingsMap)
    ensures s.Keys == Defaults.Keys + (if decoded.Arr? then decoded.entries.Keys else {})
    ensures forall k :: decoded.Arr? && k in decoded.entries ==> s[k] == decoded.entries[k]
    ensures forall k :: k in Defaults && !(decoded.Arr? && k in decoded.entries) ==> s[k] == Defaults[k]
    ensures !decoded.Arr? ==> s == Defaults
    ensures s != map[]
  {
    var stored := if decoded.Arr? then decoded.entries else map[];
    assert "max" in Defaults + stored;
    Defaults + stored
  }

  /** $settings[$name]: reading a missing entry gives null. */
  function Get(s: SettingsMap, name: string): Value {
    if name in s then s[name] else Null
  }

  /** intval($settings['max']), the scale the degree mapper divides by. */
  function MaxScale(s: SettingsMap): int {
    IntVal(Get(s, "max"))
  }

  /**
   * The settings field after one get_settings call: an empty field is filled
   * from the decoded stored option, a filled one is kept.
   */
  function Cached(current: SettingsMap, decoded: Value): (s: SettingsMap)
    ensures s != map[]
    ensures current != map[] ==> s == current
    ensures current == map[] ==> s == ParseArgs(decoded)
  {
    if current == map[] then ParseArgs(decoded) else current
  }

  /**
   * Once filled, the field never changes: a later call returns the first
   * result, whatever the stored option has become in between.
   */
  lemma CachedIsStable(current: SettingsMap, first: Value, later: Value)
    ensures Cached(Cached(current, first), later) == Cached(current, first)
  {
  }

  /** With nothing stored for them, key and ip are null and the scale is 100. */
  lemma MissingEntriesTakeDefaults(decoded: Value)
    requires !decoded.Arr? || ("key" !in decoded.entries && "ip" !in decoded.entries && "max" !in decoded.entries)
    ensures Get(ParseArgs(decoded), "key") == Null
    ensures Get(ParseArgs(decoded), "ip") == Null
    ensures MaxScale(ParseArgs(decoded)) == 100
  {
  }

  /** A max stored as the text %d writes for n is read back as n. */
  lemma StoredDecimalMax(decoded: Value, n: int)
    requires decoded.Arr? && "max" in decoded.entries && decoded.entries["max"] == Str(IntToString(n))
    ensures MaxScale(ParseArgs(decoded)) == n
  {
    IntValOfIntToString(n);
  }
}

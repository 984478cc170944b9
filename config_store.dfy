/**
 * The configuration store: a mapping from section name to a mapping from
 * key to value, as `Config` (a `ConfigParser` whose sections are `DotDict`s)
 * holds it, with the three ways the pipeline reads it:
 *   - `cfg.Section` (`Config.__getattr__`) fails with `KeyError` on a
 *     missing section;
 *   - `cfg.Section.key` (`DotDict.__getattr__`, i.e. `dict.get`) gives
 *     `None` for a missing key;
 *   - `cfg.get` / `getint` / `getboolean` fail with `NoSectionError`,
 *     `NoOptionError` or `ValueError`.
 */
module ConfigStore {
  import opened Wrappers
  import opened PyStr

  /**
   * A value held under a key: the raw string read from the file, or one of
   * the typed values the normalisation stages put in its place.
   */
  datatype Value =
    | Str(s: string)
    | Int(i: int)
    | Bool(b: bool)
    | Tuple(items: seq<string>)
    | Proxies(table: map<string, string>)
      /** A `string.Template`, kept unevaluated around whatever it was given (`None` included). */
    | Template(text: Option<Value>)

  type SectionMap = map<string, Value>

  type Store = map<string, SectionMap>

  /** The exceptions the pipeline can raise. */
  datatype Error =
    | KeyError(key: string)
    | NoSectionError(section: string)
    | NoOptionError(section: string, option: string)
      /** `int()` or the boolean conversion rejected the raw text. */
    | ValueError(section: string, option: string, raw: string)
      /** A string operation met `None` or an already converted value (AttributeError / TypeError). */
    | NotAString(section: string, option: string)
      /** An exception from an HTTP client that no handler catches, with its `repr`. */
    | Uncaught(repr: string)

  /** How a stage ended: normally, or by raising `error`. */
  datatype Outcome = Pass | Fail(error: Error)

  /** `cfg.name` (`Config.__getattr__`). */
  function Attr(s: Store, name: string): Result<SectionMap, Error>
  {
    if name !in s then Err(KeyError(name)) else Ok(s[name])
  }

  /** `section.key` on a `DotDict` (`dict.get`). */
  function DotGet(section: SectionMap, key: string): Option<Value>
  {
    if key in section then Some(section[key]) else None
  }

  /** `cfg.section.key`. */
  function Lookup(s: Store, section: string, key: string): Result<Option<Value>, Error>
  {
    match Attr(s, section)
    case Err(e) => Err(e)
    case Ok(sec) => Ok(DotGet(sec, key))
  }

  /**
   * A missing section raises `KeyError`; a missing key inside an existing
   * section yields `None`; a present key yields its value.
   */
  lemma LookupSemantics(s: Store, section: string, key: string)
    ensures Lookup(s, section, key) == Err(KeyError(section)) <==> section !in s
    ensures Lookup(s, section, key) == Ok(None) <==> section in s && key !in s[section]
    ensures section in s && key in s[section] ==> Lookup(s, section, key) == Ok(Some(s[section][key]))
  {
  }

  /** The entry at `(section, key)`, if both exist. */
  function Entry(s: Store, section: string, key: string): Option<Value>
  {
    if section in s && key in s[section] then Some(s[section][key]) else None
  }

  /** `cfg.section.key = v` (`DotDict.__setattr__`) on an existing section. */
  function Put(s: Store, section: string, key: string, v: Value): (r: Store)
    requires section in s
    ensures r.Keys == s.Keys
    ensures Entry(r, section, key) == Some(v)
    ensures forall sec, k | (sec, k) != (section, key) :: Entry(r, sec, k) == Entry(s, sec, k)
  {
    s[section := s[section][key := v]]
  }

  /** `cfg.get(section, option)` (interpolation left out). */
  function ConfigGet(s: Store, section: string, option: string): Result<Value, Error>
  {
    if section !in s then Err(NoSectionError(section))
    else if option !in s[section] then Err(NoOptionError(section, option))
    else Ok(s[section][option])
  }

  /** `cfg.getint(section, option)`. */
  function GetInt(s: Store, section: string, option: string): Result<int, Error>
  {
    match ConfigGet(s, section, option)
    case Err(e) => Err(e)
    case Ok(Str(raw)) =>
      (match ParseInt(raw)
       case Some(n) => Ok(n)
       case None => Err(ValueError(section, option, raw)))
    case Ok(_) => Err(NotAString(section, option))
  }

  /** `ConfigParser.BOOLEAN_STATES`. */
  const BOOLEAN_STATES: map<string, bool> :=
    map["1" := true, "yes" := true, "true" := true, "on" := true,
        "0" := false, "no" := false, "false" := false, "off" := false]

  /** The boolean spelled by `raw`, compared after lower-casing. */
  function ParseBool(raw: string): Option<bool>
  {
    var key := Lower(raw);
    if key in BOOLEAN_STATES then Some(BOOLEAN_STATES[key]) else None
  }

  /** `cfg.getboolean(section, option)`. */
  function GetBoolean(s: Store, section: string, option: string): Result<bool, Error>
  {
    match ConfigGet(s, section, option)
    case Err(e) => Err(e)
    case Ok(Str(raw)) =>
      (match ParseBool(raw)
       case Some(b) => Ok(b)
       case None => Err(ValueError(section, option, raw)))
    case Ok(_) => Err(NotAString(section, option))
  }

  /** `ParseBool` does not depend on letter case. */
  lemma ParseBoolIgnoresCase(a: string, b: string)
    requires Lower(a) == Lower(b)
    ensures ParseBool(a) == ParseBool(b)
  {
  }

  /** The accepted spellings, in any letter case, and a rejected one. */
  lemma ParseBoolSpellings()
    ensures ParseBool("Yes") == ParseBool("yes") == ParseBool("YES") == Some(true)
    ensures ParseBool("1") == ParseBool("on") == ParseBool("True") == Some(true)
    ensures ParseBool("No") == ParseBool("OFF") == ParseBool("0") == ParseBool("false") == Some(false)
    ensures ParseBool("maybe") == None && ParseBool("") == None
  {
    assert Lower("Yes") == "yes" && Lower("YES") == "yes" && Lower("yes") == "yes";
    assert Lower("1") == "1" && Lower("on") == "on" && Lower("True") == "true";
    assert Lower("No") == "no" && Lower("OFF") == "off" && Lower("0") == "0" && Lower("false") == "false";
    assert Lower("maybe") == "maybe" && Lower("") == "";
  }

  /** `getint` and `getboolean` raise only for the reasons named. */
  lemma GetIntFailures(s: Store, section: string, option: string)
    ensures GetInt(s, section, option).Err? <==>
      Entry(s, section, option).None? ||
      !Entry(s, section, option).value.Str? ||
      ParseInt(Entry(s, section, option).value.s).None?
    ensures GetInt(s, section, option) == Err(NoSectionError(section)) <==> section !in s
    ensures GetInt(s, section, option).Ok? ==>
      Entry(s, section, option) == Some(Str(s[section][option].s)) &&
      ParseInt(s[section][option].s) == Some(GetInt(s, section, option).value)
  {
  }

  lemma GetBooleanFailures(s: Store, section: string, option: string)
    ensures GetBoolean(s, section, option).Err? <==>
      Entry(s, section, option).None? ||
      !Entry(s, section, option).value.Str? ||
      ParseBool(Entry(s, section, option).value.s).None?
    ensures GetBoolean(s, section, option) == Err(NoSectionError(section)) <==> section !in s
    ensures GetBoolean(s, section, option).Ok? ==>
      Entry(s, section, option) == Some(Str(s[section][option].s)) &&
      ParseBool(s[section][option].s) == Some(GetBoolean(s, section, option).value)
  {
  }

  /** Python truthiness of what `cfg.section.key` returned (`None` is false). */
  predicate Truthy(v: Option<Value>)
  {
    match v
    case None => false
    case Some(Str(t)) => t != ""
    case Some(Int(n)) => n != 0
    case Some(Bool(b)) => b
    case Some(Tuple(items)) => items != []
    case Some(Proxies(table)) => table != map[]
    case Some(Template(_)) => true
  }
}

/**
 * The six stages of `Config.validate` and the command-line overlay
 * `overwrite_cfg`, each as a pure function from the store before the stage
 * to the store after it and how the stage ended. A stage that raises leaves
 * behind the writes it made before the exception, as the Python code does.
 * The in-place methods of `CoreConfig.Config` are proved equal to these
 * functions; the lemmas below state what each stage promises.
 */
module Normalize {
  import opened Wrappers
  import opened PyStr
  import opened ConfigStore
  import opened UrlGrammar

  /** The store after a stage and how the stage ended. */
  datatype Stage = Stage(store: Store, outcome: Outcome)

  /** `t` has the sections of `s` and differs from it at most at the entries in `written`. */
  ghost predicate Unchanged(s: Store, t: Store, written: set<(string, string)>)
  {
    && t.Keys == s.Keys
    && forall sec, k | (sec, k) !in written :: Entry(t, sec, k) == Entry(s, sec, k)
  }

  /** `t` has the sections of `s`, and every section but `sec` is as in `s`. */
  predicate SameOutside(s: Store, t: Store, sec: string)
  {
    && t.Keys == s.Keys
    && forall x | x in s && x != sec :: t[x] == s[x]
  }

  /** `t` has the sections of `s`, and section `x`, if present, is as in `s`. */
  predicate SectionKept(s: Store, t: Store, x: string)
  {
    t.Keys == s.Keys && (x in s ==> t[x] == s[x])
  }

  /** Writing no entry of section `x` keeps that section. */
  lemma UnchangedKeepsSection(s: Store, t: Store, written: set<(string, string)>, x: string)
    requires Unchanged(s, t, written)
    requires forall p | p in written :: p.0 != x
    ensures SectionKept(s, t, x)
  {
    if x in s {
      forall k | k in s[x] ensures k in t[x] && t[x][k] == s[x][k] {
        assert Entry(t, x, k) == Entry(s, x, k);
      }
      forall k | k in t[x] ensures k in s[x] {
        assert Entry(t, x, k) == Entry(s, x, k);
      }
      assert t[x] == s[x];
    }
  }

  // ---------------------------------------------------------------------
  // norm_int
  // ---------------------------------------------------------------------

  /** `norm_int`: `Network.retry`, then `Network.timeout`, through `getint`. */
  function NormIntStep(s: Store): (r: Stage)
    ensures SectionKept(s, r.store, "ProxyFree")
  {
    match GetInt(s, "Network", "retry")
    case Err(e) => Stage(s, Fail(e))
    case Ok(retry) =>
      var s1 := Put(s, "Network", "retry", Int(retry));
      match GetInt(s1, "Network", "timeout")
      case Err(e) => Stage(s1, Fail(e))
      case Ok(timeout) => Stage(Put(s1, "Network", "timeout", Int(timeout)), Pass)
  }

  /**
   * `norm_int` succeeds exactly when both entries spell integers, and then
   * holds those integers; a missing `Network` section fails first.
   */
  lemma NormIntResult(s: Store)
    ensures NormIntStep(s).outcome.Pass? <==>
      GetInt(s, "Network", "retry").Ok? && GetInt(s, "Network", "timeout").Ok?
    ensures NormIntStep(s).outcome.Pass? ==>
      && Entry(NormIntStep(s).store, "Network", "retry") == Some(Int(GetInt(s, "Network", "retry").value))
      && Entry(NormIntStep(s).store, "Network", "timeout") == Some(Int(GetInt(s, "Network", "timeout").value))
    ensures "Network" !in s ==> NormIntStep(s).outcome == Fail(NoSectionError("Network"))
  {
    if GetInt(s, "Network", "retry").Ok? {
      var s1 := Put(s, "Network", "retry", Int(GetInt(s, "Network", "retry").value));
      assert ConfigGet(s1, "Network", "timeout") == ConfigGet(s, "Network", "timeout");
    }
  }

  /** `norm_int` writes only `retry` and `timeout`. */
  lemma NormIntFrame(s: Store)
    ensures Unchanged(s, NormIntStep(s).store, {("Network", "retry"), ("Network", "timeout")})
  {
  }

  // ---------------------------------------------------------------------
  // norm_tuples
  // ---------------------------------------------------------------------

  /** An extension with its dot: the piece itself if it starts with `.`, else `.` before it. */
  function Dotted(p: string): string
  {
    if StartsWith(p, ".") then p else "." + p
  }

  /** The `media_ext` comprehension: the `;`-pieces of the lower-cased text, each given a leading dot. */
  function MediaExts(raw: string): seq<string>
  {
    var items := Split(Lower(raw), ';');
    seq(|items|, i requires 0 <= i < |items| => Dotted(items[i]))
  }

  /**
   * One extension per `;`-piece of the lower-cased text, in order; each is
   * lower-case, starts with `.` and holds no `;`; a piece that already
   * starts with `.` is kept as it is, any other gets a `.` in front (so an
   * empty piece becomes `.`).
   */
  lemma MediaExtsShape(raw: string)
    ensures |MediaExts(raw)| == Count(Lower(raw), ';') + 1
    ensures forall i | 0 <= i < |MediaExts(raw)| ::
      && IsLowerCase(MediaExts(raw)[i])
      && StartsWith(MediaExts(raw)[i], ".")
      && ';' !in MediaExts(raw)[i]
    ensures forall i | 0 <= i < |MediaExts(raw)| ::
      var p := Split(Lower(raw), ';')[i];
      (StartsWith(p, ".") ==> MediaExts(raw)[i] == p) &&
      (!StartsWith(p, ".") ==> MediaExts(raw)[i] == "." + p) &&
      (p == "" ==> MediaExts(raw)[i] == ".")
  {
    var items := Split(Lower(raw), ';');
    LowerIsLowerCase(raw);
    forall i | 0 <= i < |items|
      ensures IsLowerCase(items[i]) && ';' !in items[i]
    {
      SplitPiecesLowerCase(Lower(raw), ';', i);
    }
  }

  /** The pieces of a lower-case text are lower-case. */
  lemma {:induction false} SplitPiecesLowerCase(s: string, c: char, i: nat)
    requires IsLowerCase(s) && i < |Split(s, c)|
    ensures IsLowerCase(Split(s, c)[i])
    decreases |s|
  {
    if s == [] {
    } else if s[0] == c {
      if i > 0 {
        SplitPiecesLowerCase(s[1..], c, i - 1);
      }
    } else {
      var rest := Split(s[1..], c);
      if i == 0 {
        SplitPiecesLowerCase(s[1..], c, 0);
        assert Split(s, c)[0] == [s[0]] + rest[0];
      } else {
        SplitPiecesLowerCase(s[1..], c, i);
        assert Split(s, c)[i] == rest[i];
      }
    }
  }

  /** A lower-case text joined from lower-case pieces. */
  lemma {:induction false} JoinLowerCase(ps: seq<string>, sep: string)
    requires IsLowerCase(sep)
    requires forall i | 0 <= i < |ps| :: IsLowerCase(ps[i])
    ensures IsLowerCase(Join(ps, sep))
  {
    if |ps| > 1 {
      JoinLowerCase(ps[1..], sep);
    }
  }

  /**
   * Normalising the extensions again, from their `;`-join, changes nothing:
   * the stored tuple is a fixed point of the comprehension.
   */
  lemma MediaExtsIdempotent(raw: string)
    ensures MediaExts(Join(MediaExts(raw), ";")) == MediaExts(raw)
  {
    var exts := MediaExts(raw);
    MediaExtsShape(raw);
    JoinLowerCase(exts, ";");
    LowerOfLowerCase(Join(exts, ";"));
    SplitJoin(exts, ';');
  }

  /** `mp4;AVI` gives `.mp4` and `.avi`. */
  lemma MediaExtsExample()
    ensures MediaExts("mp4;AVI") == [".mp4", ".avi"]
  {
    MediaExample();
  }

  /** The steps of the example: lower-casing, splitting, and the dots. */
  lemma MediaExample()
    ensures Split(Lower("mp4;AVI"), ';') == ["mp4", "avi"]
    ensures Dotted("mp4") == ".mp4" && Dotted("avi") == ".avi"
  {
    LowerMediaExample();
    assert "mp4;avi" == "mp4" + [';'] + "avi";
    SplitAfterPiece("mp4", "avi", ';');
    SplitOfPiece("avi", ';');
    assert "mp4"[..1] != "." && "avi"[..1] != ".";
  }

  lemma LowerMediaExample()
    ensures Lower("mp4;AVI") == "mp4;avi"
  {
    var low := Lower("mp4;AVI");
    assert |low| == 7;
    assert low[4] == LowerChar('A') == 'a';
    assert low[5] == LowerChar('V') == 'v';
    assert low[6] == LowerChar('I') == 'i';
  }

  /** An empty setting gives the one extension `.`. */
  lemma MediaExtsOfEmpty()
    ensures MediaExts("") == ["."]
  {
    assert Lower("") == "";
    assert Split("", ';') == [""];
    assert Dotted("") == ".";
  }

  /** `norm_tuples`: `File.media_ext`, `File.ignore_folder`, then `Crawler.required_keys`. */
  function NormTuplesStep(s: Store): (r: Stage)
    ensures SectionKept(s, r.store, "ProxyFree")
  {
    if "File" !in s then Stage(s, Fail(KeyError("File")))
    else match DotGet(s["File"], "media_ext")
      case Some(Str(m)) =>
        var s1 := Put(s, "File", "media_ext", Tuple(MediaExts(m)));
        (match DotGet(s1["File"], "ignore_folder")
         case Some(Str(f)) =>
           var s2 := Put(s1, "File", "ignore_folder", Tuple(Split(f, ';')));
           if "Crawler" !in s2 then Stage(s2, Fail(KeyError("Crawler")))
           else
             (match DotGet(s2["Crawler"], "required_keys")
              case Some(Str(k)) => Stage(Put(s2, "Crawler", "required_keys", Tuple(Split(k, ','))), Pass)
              case _ => Stage(s2, Fail(NotAString("Crawler", "required_keys"))))
         case _ => Stage(s1, Fail(NotAString("File", "ignore_folder"))))
      case _ => Stage(s, Fail(NotAString("File", "media_ext")))
  }

  /** The text held at an entry, if the entry holds a string. */
  function RawText(s: Store, sec: string, k: string): Option<string>
  {
    match Entry(s, sec, k)
    case Some(Str(t)) => Some(t)
    case _ => None
  }

  /** `norm_tuples` succeeds exactly when the three entries hold text. */
  lemma NormTuplesResult(s: Store)
    ensures NormTuplesStep(s).outcome.Pass? <==>
      RawText(s, "File", "media_ext").Some? && RawText(s, "File", "ignore_folder").Some? &&
      RawText(s, "Crawler", "required_keys").Some?
    ensures "File" !in s ==> NormTuplesStep(s).outcome == Fail(KeyError("File"))
  {
    if "File" in s && RawText(s, "File", "media_ext").Some? {
      var s1 := Put(s, "File", "media_ext", Tuple(MediaExts(RawText(s, "File", "media_ext").value)));
      assert RawText(s1, "File", "ignore_folder") == RawText(s, "File", "ignore_folder");
      if RawText(s, "File", "ignore_folder").Some? {
        var s2 := Put(s1, "File", "ignore_folder", Tuple(Split(RawText(s, "File", "ignore_folder").value, ';')));
        assert RawText(s2, "Crawler", "required_keys") == RawText(s, "Crawler", "required_keys");
      }
    }
  }

  /**
   * After `norm_tuples` succeeds, `media_ext` holds the extensions of its
   * text and the other two entries hold the plain splits of theirs, which
   * join back to the text they came from.
   */
  lemma NormTuplesEntries(s: Store)
    requires NormTuplesStep(s).outcome.Pass?
    ensures var t := NormTuplesStep(s).store;
      && RawText(s, "File", "media_ext").Some?
      && Entry(t, "File", "media_ext") == Some(Tuple(MediaExts(RawText(s, "File", "media_ext").value)))
      && Entry(t, "File", "ignore_folder").Some? && Entry(t, "File", "ignore_folder").value.Tuple?
      && Join(Entry(t, "File", "ignore_folder").value.items, ";") == RawText(s, "File", "ignore_folder").value
      && Entry(t, "Crawler", "required_keys").Some? && Entry(t, "Crawler", "required_keys").value.Tuple?
      && Join(Entry(t, "Crawler", "required_keys").value.items, ",") == RawText(s, "Crawler", "required_keys").value
  {
    NormTuplesResult(s);
    JoinSplit(RawText(s, "File", "ignore_folder").value, ';');
    JoinSplit(RawText(s, "Crawler", "required_keys").value, ',');
  }

  /** After `norm_tuples` succeeds, the three entries hold the tuples built from their text. */
  lemma NormTuplesSplits(s: Store)
    requires NormTuplesStep(s).outcome.Pass?
    ensures var t := NormTuplesStep(s).store;
      && RawText(s, "File", "media_ext").Some?
      && RawText(s, "File", "ignore_folder").Some?
      && RawText(s, "Crawler", "required_keys").Some?
      && Entry(t, "File", "media_ext") == Some(Tuple(MediaExts(RawText(s, "File", "media_ext").value)))
      && Entry(t, "File", "ignore_folder") == Some(Tuple(Split(RawText(s, "File", "ignore_folder").value, ';')))
      && Entry(t, "Crawler", "required_keys") == Some(Tuple(Split(RawText(s, "Crawler", "required_keys").value, ',')))
  {
    NormTuplesResult(s);
    var m := RawText(s, "File", "media_ext").value;
    var s1 := Put(s, "File", "media_ext", Tuple(MediaExts(m)));
    var f := RawText(s, "File", "ignore_folder").value;
    assert DotGet(s1["File"], "ignore_folder") == Some(Str(f));
    var s2 := Put(s1, "File", "ignore_folder", Tuple(Split(f, ';')));
    var k := RawText(s, "Crawler", "required_keys").value;
    assert DotGet(s2["Crawler"], "required_keys") == Some(Str(k));
    assert NormTuplesStep(s).store == Put(s2, "Crawler", "required_keys", Tuple(Split(k, ',')));
  }

  /** `norm_tuples` writes only its three entries. */
  lemma NormTuplesFrame(s: Store)
    ensures Unchanged(s, NormTuplesStep(s).store,
      {("File", "media_ext"), ("File", "ignore_folder"), ("Crawler", "required_keys")})
  {
  }

  // ---------------------------------------------------------------------
  // norm_boolean
  // ---------------------------------------------------------------------

  /** The entries `norm_boolean` converts, in its order. */
  const BOOLEAN_KEYS: seq<(string, string)> := [
    ("Crawler", "hardworking_mode"),
    ("Crawler", "title__remove_actor"),
    ("Crawler", "title__chinese_first"),
    ("Picture", "use_big_cover"),
    ("NFO", "add_genre_to_tag")
  ]

  /** The loop of `norm_boolean` from the pair `keys[0]` on. */
  function NormBooleanFrom(s: Store, keys: seq<(string, string)>): Stage
    decreases |keys|
  {
    if keys == [] then Stage(s, Pass)
    else
      match GetBoolean(s, keys[0].0, keys[0].1)
      case Err(e) => Stage(s, Fail(e))
      case Ok(b) => NormBooleanFrom(Put(s, keys[0].0, keys[0].1, Bool(b)), keys[1..])
  }

  /** The loop writes only its own pairs. */
  lemma {:induction false} NormBooleanFromFrame(s: Store, keys: seq<(string, string)>)
    ensures Unchanged(s, NormBooleanFrom(s, keys).store, set p | p in keys)
    decreases |keys|
  {
    if keys != [] && GetBoolean(s, keys[0].0, keys[0].1).Ok? {
      var s1 := Put(s, keys[0].0, keys[0].1, Bool(GetBoolean(s, keys[0].0, keys[0].1).value));
      NormBooleanFromFrame(s1, keys[1..]);
      assert (set p | p in keys) == {keys[0]} + (set p | p in keys[1..]);
    }
  }

  /** The same pairs as a set. */
  const BOOLEAN_ENTRIES: set<(string, string)> := {
    ("Crawler", "hardworking_mode"),
    ("Crawler", "title__remove_actor"),
    ("Crawler", "title__chinese_first"),
    ("Picture", "use_big_cover"),
    ("NFO", "add_genre_to_tag")
  }

  /**
   * The pairs are distinct, none is in `ProxyFree`, `Network`, `File` or
   * `NamingRule`, and no other stage of `validate` writes one of them (the
   * three `Crawler` flags are not `required_keys`).
   */
  lemma BooleanEntries()
    ensures (set p | p in BOOLEAN_KEYS) == BOOLEAN_ENTRIES
    ensures Distinct(BOOLEAN_KEYS)
    ensures forall p | p in BOOLEAN_ENTRIES :: p.0 != "ProxyFree" && p.0 != "Network" && p.0 != "File" && p.0 != "NamingRule"
    ensures forall n: StageName | n != NormBoolean :: Writes(n) !! BOOLEAN_ENTRIES
  {
  }

  /** `norm_boolean`. */
  function NormBooleanStep(s: Store): (r: Stage)
    ensures SectionKept(s, r.store, "ProxyFree")
  {
    NormBooleanFrame(s);
    NormBooleanFrom(s, BOOLEAN_KEYS)
  }

  /** `norm_boolean` writes only the five listed entries. */
  lemma NormBooleanFrame(s: Store)
    ensures Unchanged(s, NormBooleanFrom(s, BOOLEAN_KEYS).store, BOOLEAN_ENTRIES)
    ensures SectionKept(s, NormBooleanFrom(s, BOOLEAN_KEYS).store, "ProxyFree")
  {
    NormBooleanFromFrame(s, BOOLEAN_KEYS);
    BooleanEntries();
    UnchangedKeepsSection(s, NormBooleanFrom(s, BOOLEAN_KEYS).store, BOOLEAN_ENTRIES, "ProxyFree");
  }

  predicate Distinct(keys: seq<(string, string)>)
  {
    forall i, j | 0 <= i < j < |keys| :: keys[i] != keys[j]
  }

  /** Writing one entry does not change what `getboolean` reads at another. */
  lemma GetBooleanAfterPut(s: Store, sec: string, k: string, v: Value, sec2: string, k2: string)
    requires sec in s && (sec, k) != (sec2, k2)
    ensures GetBoolean(Put(s, sec, k, v), sec2, k2) == GetBoolean(s, sec2, k2)
  {
    assert ConfigGet(Put(s, sec, k, v), sec2, k2) == ConfigGet(s, sec2, k2);
  }

  /** The loop leaves an entry that is not one of its pairs as it was. */
  lemma NormBooleanFromKeeps(s: Store, keys: seq<(string, string)>, sec: string, k: string)
    requires (sec, k) !in keys
    ensures Entry(NormBooleanFrom(s, keys).store, sec, k) == Entry(s, sec, k)
  {
    NormBooleanFromFrame(s, keys);
  }

  /**
   * Over distinct pairs, the loop succeeds exactly when every pair spells a
   * boolean, and then every pair holds the boolean it spelled.
   */
  lemma {:induction false} NormBooleanFromResult(s: Store, keys: seq<(string, string)>)
    requires Distinct(keys)
    ensures NormBooleanFrom(s, keys).outcome.Pass? <==>
      forall i | 0 <= i < |keys| :: GetBoolean(s, keys[i].0, keys[i].1).Ok?
    ensures NormBooleanFrom(s, keys).outcome.Pass? ==>
      forall i | 0 <= i < |keys| ::
        Entry(NormBooleanFrom(s, keys).store, keys[i].0, keys[i].1) ==
        Some(Bool(GetBoolean(s, keys[i].0, keys[i].1).value))
    decreases |keys|
  {
    if keys != [] {
      var sec, k := keys[0].0, keys[0].1;
      if GetBoolean(s, sec, k).Ok? {
        var b := GetBoolean(s, sec, k).value;
        var s1 := Put(s, sec, k, Bool(b));
        var rest := keys[1..];
        RestAfterPut(s, keys, Bool(b));
        NormBooleanFromResult(s1, rest);
        NormBooleanFromKeeps(s1, rest, sec, k);
        assert NormBooleanFrom(s1, rest) == NormBooleanFrom(s, keys);
      }
    }
  }

  /**
   * Past the first of distinct pairs: the rest are distinct, do not hold
   * the first, and read as before once the first is written.
   */
  lemma RestAfterPut(s: Store, keys: seq<(string, string)>, v: Value)
    requires Distinct(keys) && keys != [] && keys[0].0 in s
    ensures Distinct(keys[1..]) && keys[0] !in keys[1..]
    ensures forall i | 0 <= i < |keys| && i > 0 :: keys[i] == keys[1..][i - 1]
    ensures forall i | 0 <= i < |keys| - 1 ::
      GetBoolean(Put(s, keys[0].0, keys[0].1, v), keys[1..][i].0, keys[1..][i].1) ==
      GetBoolean(s, keys[1..][i].0, keys[1..][i].1)
  {
    var rest := keys[1..];
    forall i | 0 <= i < |rest|
      ensures GetBoolean(Put(s, keys[0].0, keys[0].1, v), rest[i].0, rest[i].1) == GetBoolean(s, rest[i].0, rest[i].1)
    {
      assert rest[i] == keys[i + 1];
      GetBooleanAfterPut(s, keys[0].0, keys[0].1, v, rest[i].0, rest[i].1);
    }
    forall j | 0 <= j < |rest| ensures rest[j] != keys[0] {
      assert rest[j] == keys[j + 1];
    }
  }

  /**
   * `norm_boolean` succeeds exactly when the five listed entries spell
   * booleans; it then holds those booleans there and changes no other entry.
   */
  lemma NormBooleanResult(s: Store)
    ensures NormBooleanStep(s).outcome.Pass? <==>
      forall p | p in BOOLEAN_ENTRIES :: GetBoolean(s, p.0, p.1).Ok?
    ensures NormBooleanStep(s).outcome.Pass? ==>
      forall p | p in BOOLEAN_ENTRIES ::
        Entry(NormBooleanStep(s).store, p.0, p.1) == Some(Bool(GetBoolean(s, p.0, p.1).value))
  {
    BooleanEntries();
    NormBooleanFromResult(s, BOOLEAN_KEYS);
  }

  // ---------------------------------------------------------------------
  // validate_proxy
  // ---------------------------------------------------------------------

  /**
   * The proxy descriptor for an address: both traffic classes map to the
   * lower-cased address when it matches the proxy pattern, and the table
   * is empty otherwise; it is never partly filled.
   */
  function ProxyTable(address: string): (t: map<string, string>)
    ensures t == map[] || (t.Keys == {"http", "https"} && t["http"] == t["https"] == Lower(address))
    ensures t != map[] <==> IsProxyAddress(Lower(address))
  {
    var p := Lower(address);
    if IsProxyAddress(p) then
      var t := map["http" := p, "https" := p];
      assert "http" in t;
      t
    else map[]
  }

  /** `validate_proxy`. */
  function ValidateProxyStep(s: Store): (r: Stage)
    ensures SectionKept(s, r.store, "ProxyFree")
  {
    match GetBoolean(s, "Network", "use_proxy")
    case Err(e) => Stage(s, Fail(e))
    case Ok(false) => Stage(Put(s, "Network", "proxy", Proxies(map[])), Pass)
    case Ok(true) =>
      match DotGet(s["Network"], "proxy")
      case Some(Str(p)) => Stage(Put(s, "Network", "proxy", Proxies(ProxyTable(p))), Pass)
      case _ => Stage(s, Fail(NotAString("Network", "proxy")))
  }

  /** The stage logs its warning: the proxy is on but its address does not match. */
  predicate ProxyWarned(s: Store)
  {
    && GetBoolean(s, "Network", "use_proxy") == Ok(true)
    && RawText(s, "Network", "proxy").Some?
    && !IsProxyAddress(Lower(RawText(s, "Network", "proxy").value))
  }

  /**
   * `validate_proxy` fails only on a bad `use_proxy` or, with the proxy on,
   * a missing address. Otherwise the descriptor is empty exactly when the
   * proxy is off or the lower-cased address does not match (the warning
   * case), and else maps `http` and `https` to that address.
   */
  lemma ValidateProxyResult(s: Store)
    ensures ValidateProxyStep(s).outcome.Pass? <==>
      || GetBoolean(s, "Network", "use_proxy") == Ok(false)
      || (GetBoolean(s, "Network", "use_proxy") == Ok(true) && RawText(s, "Network", "proxy").Some?)
    ensures ValidateProxyStep(s).outcome.Pass? ==>
      var t := ValidateProxyStep(s).store;
      && Entry(t, "Network", "proxy").Some? && Entry(t, "Network", "proxy").value.Proxies?
      && (Entry(t, "Network", "proxy").value.table == map[] <==>
            GetBoolean(s, "Network", "use_proxy") == Ok(false) || ProxyWarned(s))
      && (Entry(t, "Network", "proxy").value.table != map[] ==>
            var p := Lower(RawText(s, "Network", "proxy").value);
            Entry(t, "Network", "proxy").value.table == map["http" := p, "https" := p])
  {
    if GetBoolean(s, "Network", "use_proxy") == Ok(true) && RawText(s, "Network", "proxy").Some? {
      var p := Lower(RawText(s, "Network", "proxy").value);
      var t := ProxyTable(RawText(s, "Network", "proxy").value);
      if t != map[] {
        assert t == map["http" := p, "https" := p];
      }
    }
  }

  /** With the proxy on and an address given, `validate_proxy` stores the address's table. */
  lemma ValidateProxyOn(s: Store, address: string)
    requires GetBoolean(s, "Network", "use_proxy") == Ok(true)
    requires Entry(s, "Network", "proxy") == Some(Str(address))
    ensures ValidateProxyStep(s) == Stage(Put(s, "Network", "proxy", Proxies(ProxyTable(address))), Pass)
  {
  }

  /** A matching address maps `http` and `https` to itself, lower-cased. */
  lemma ProxyTableOf(address: string)
    requires IsProxyAddress(Lower(address))
    ensures ProxyTable(address) == map["http" := Lower(address), "https" := Lower(address)]
  {
  }

  /** `validate_proxy` writes only `Network.proxy`. */
  lemma ValidateProxyFrame(s: Store)
    ensures Unchanged(s, ValidateProxyStep(s).store, {("Network", "proxy")})
  {
  }

  // ---------------------------------------------------------------------
  // convert_naming_rule
  // ---------------------------------------------------------------------

  /** `convert_naming_rule`, with `os.sep` as `sep`. */
  function ConvertNamingRuleStep(s: Store, sep: string): (r: Stage)
    ensures SectionKept(s, r.store, "ProxyFree")
  {
    if "NamingRule" !in s then Stage(s, Fail(KeyError("NamingRule")))
    else
      var rule := s["NamingRule"];
      match (DotGet(rule, "output_folder"), DotGet(rule, "save_dir"))
      case (Some(Str(folder)), Some(Str(dir))) =>
        var s1 := Put(s, "NamingRule", "save_dir", Template(Some(Str(folder + sep + dir))));
        Stage(Put(s1, "NamingRule", "filename", Template(DotGet(rule, "filename"))), Pass)
      case (Some(Str(_)), _) => Stage(s, Fail(NotAString("NamingRule", "save_dir")))
      case _ => Stage(s, Fail(NotAString("NamingRule", "output_folder")))
  }

  /**
   * The stage succeeds exactly when the output folder and the save
   * directory are text; the path template's text is then the folder, the
   * separator and the directory, and the filename template wraps the
   * original filename (absent included). Nothing else changes, and on
   * failure nothing changes at all.
   */
  lemma ConvertNamingRuleResult(s: Store, sep: string)
    ensures ConvertNamingRuleStep(s, sep).outcome.Pass? <==>
      RawText(s, "NamingRule", "output_folder").Some? && RawText(s, "NamingRule", "save_dir").Some?
    ensures ConvertNamingRuleStep(s, sep).outcome.Pass? ==>
      var t := ConvertNamingRuleStep(s, sep).store;
      var path := RawText(s, "NamingRule", "output_folder").value + sep + RawText(s, "NamingRule", "save_dir").value;
      && Entry(t, "NamingRule", "save_dir") == Some(Template(Some(Str(path))))
      && Entry(t, "NamingRule", "filename") == Some(Template(Entry(s, "NamingRule", "filename")))
      && StartsWith(path, RawText(s, "NamingRule", "output_folder").value)
    ensures ConvertNamingRuleStep(s, sep).outcome.Fail? ==> ConvertNamingRuleStep(s, sep).store == s
  {
  }

  /** `convert_naming_rule` writes only the two templates. */
  lemma ConvertNamingRuleFrame(s: Store, sep: string)
    ensures Unchanged(s, ConvertNamingRuleStep(s, sep).store, {("NamingRule", "save_dir"), ("NamingRule", "filename")})
  {
  }

  // ---------------------------------------------------------------------
  // check_proxy_free_url
  // ---------------------------------------------------------------------

  /** One proxy-free address: lower-cased, given `http://` unless it starts with `http`, kept if `is_url` holds, else `''`. */
  function NormalizeUrl(url: string): string
  {
    var l := Lower(url);
    var u := if StartsWith(l, "http") then l else "http://" + l;
    if IsUrl(u) then u else ""
  }

  /**
   * The result is `''` or a lower-case URL that starts with `http` and that
   * `is_url` accepts. It is the lower-cased address when that starts with
   * `http`, and the lower-cased address after `http://` otherwise; either
   * is kept exactly when `is_url` accepts it.
   */
  lemma NormalizeUrlResult(url: string)
    ensures NormalizeUrl(url) == "" ||
      (IsLowerCase(NormalizeUrl(url)) && StartsWith(NormalizeUrl(url), "http") && IsUrl(NormalizeUrl(url)))
    ensures NormalizeUrl(url) == "" || NormalizeUrl(url) == Lower(url) || NormalizeUrl(url) == "http://" + Lower(url)
    ensures StartsWith(Lower(url), "http") ==>
      NormalizeUrl(url) == (if IsUrl(Lower(url)) then Lower(url) else "")
    ensures !StartsWith(Lower(url), "http") ==>
      NormalizeUrl(url) == (if IsUrl("http://" + Lower(url)) then "http://" + Lower(url) else "")
  {
    var l := Lower(url);
    LowerIsLowerCase(url);
    assert IsLowerCase("http://");
    assert IsLowerCase("http://" + l);
    assert StartsWith("http://" + l, "http");
  }

  /** Normalising an address a second time changes nothing. */
  lemma NormalizeUrlIdempotent(url: string)
    ensures NormalizeUrl(NormalizeUrl(url)) == NormalizeUrl(url)
  {
    var r := NormalizeUrl(url);
    NormalizeUrlResult(url);
    if r == "" {
      assert Lower("") == "";
      IsUrlRejectsNonHttp();
      assert "http://" + "" == "http://";
    } else {
      LowerOfLowerCase(r);
    }
  }

  /** `EXAMPLE.com/path` becomes `http://example.com/path`. */
  lemma NormalizeUrlAddsScheme()
    ensures NormalizeUrl("EXAMPLE.com/path") == "http://example.com/path"
  {
    ExampleParts();
    IsUrlAcceptsDomainWithPath();
    NormalizeUrlPrefixed("EXAMPLE.com/path", "example.com/path", "http://example.com/path");
  }

  /** The lower-cased example, which does not start with `http`, and it after `http://`. */
  lemma ExampleParts()
    ensures Lower("EXAMPLE.com/path") == "example.com/path"
    ensures !StartsWith("example.com/path", "http")
    ensures "http://" + "example.com/path" == "http://example.com/path"
  {
    LowerExample();
    assert "example.com/path"[0] == 'e';
  }

  /** An address that does not start with `http` is checked, and kept, with `http://` in front. */
  lemma NormalizeUrlPrefixed(url: string, low: string, u: string)
    requires Lower(url) == low && !StartsWith(low, "http") && u == "http://" + low && IsUrl(u)
    ensures NormalizeUrl(url) == u
  {
  }

  lemma LowerExample()
    ensures Lower("EXAMPLE.com/path") == "example.com/path"
  {
    var low := Lower("EXAMPLE.com/path");
    assert |low| == 16;
    forall i | 0 <= i < 16 ensures low[i] == "example.com/path"[i] {
      assert low[i] == LowerChar("EXAMPLE.com/path"[i]);
    }
  }

  /** `not a url` becomes `''`. */
  lemma NormalizeUrlRejectsBlank()
    ensures NormalizeUrl("not a url") == ""
  {
    BlankParts();
    IsUrlRejectsBlank();
    NormalizeUrlRejected("not a url", "not a url", "http://not a url");
  }

  lemma BlankParts()
    ensures Lower("not a url") == "not a url"
    ensures !StartsWith("not a url", "http")
    ensures "http://" + "not a url" == "http://not a url"
  {
    assert "not a url"[0] == 'n';
  }

  /** An address that does not start with `http` and fails the check even after `http://` becomes `''`. */
  lemma NormalizeUrlRejected(url: string, low: string, u: string)
    requires Lower(url) == low && !StartsWith(low, "http") && u == "http://" + low && !IsUrl(u)
    ensures NormalizeUrl(url) == ""
  {
  }

  /** `HTTP://LOCALHOST` is only lower-cased. */
  lemma NormalizeUrlLowersCase()
    ensures NormalizeUrl("HTTP://LOCALHOST") == "http://localhost"
  {
    var low := Lower("HTTP://LOCALHOST");
    assert low == "http://localhost" by {
      assert |low| == 16;
      forall i | 0 <= i < 16 ensures low[i] == "http://localhost"[i] {
        assert low[i] == LowerChar("HTTP://LOCALHOST"[i]);
      }
    }
    assert low[..4] == "http";
    IsUrlAcceptsLocalhost();
  }

  /** Every value in the section is text, as read from the file. */
  predicate AllText(sec: SectionMap)
  {
    forall k | k in sec :: sec[k].Str?
  }

  /** The `ProxyFree` section, when present, still holds the text read from the file. */
  predicate ProxyFreeAsRead(s: Store)
  {
    "ProxyFree" in s ==> AllText(s["ProxyFree"])
  }

  /** `check_proxy_free_url`. */
  function ProxyFreeStep(s: Store): (r: Stage)
    requires ProxyFreeAsRead(s)
    ensures SameOutside(s, r.store, "ProxyFree")
  {
    if "ProxyFree" !in s then Stage(s, Fail(KeyError("ProxyFree")))
    else
      var sec := s["ProxyFree"];
      Stage(s["ProxyFree" := map k | k in sec :: Str(NormalizeUrl(sec[k].s))], Pass)
  }

  /**
   * The stage fails only on a missing section. Otherwise the sites are the
   * same and each address is replaced by its normalised form, which is `''`
   * or a lower-case `is_url` address starting with `http`.
   */
  lemma ProxyFreeResult(s: Store)
    requires ProxyFreeAsRead(s)
    ensures ProxyFreeStep(s).outcome.Pass? <==> "ProxyFree" in s
    ensures ProxyFreeStep(s).outcome.Pass? ==>
      var t := ProxyFreeStep(s).store["ProxyFree"];
      && t.Keys == s["ProxyFree"].Keys
      && (forall k | k in t :: t[k] == Str(NormalizeUrl(s["ProxyFree"][k].s)))
      && (forall k | k in t ::
            t[k].Str? && (t[k].s == "" || (IsLowerCase(t[k].s) && StartsWith(t[k].s, "http") && IsUrl(t[k].s))))
  {
    if "ProxyFree" in s {
      var t := ProxyFreeStep(s).store["ProxyFree"];
      forall k | k in t
        ensures t[k].Str? && (t[k].s == "" || (IsLowerCase(t[k].s) && StartsWith(t[k].s, "http") && IsUrl(t[k].s)))
      {
        NormalizeUrlResult(s["ProxyFree"][k].s);
      }
    }
  }

  // ---------------------------------------------------------------------
  // Config.validate
  // ---------------------------------------------------------------------

  /** The stages `Config.validate` calls. */
  datatype StageName =
    | NormInt | NormTuples | NormBoolean | ValidateProxy | ConvertNamingRule | CheckProxyFreeUrl

  /** The order in which `Config.validate` calls them. */
  const VALIDATE_ORDER: seq<StageName> :=
    [NormInt, NormTuples, NormBoolean, ValidateProxy, ConvertNamingRule, CheckProxyFreeUrl]

  /** One stage, with `os.sep` as `sep`. */
  function RunStage(n: StageName, s: Store, sep: string): (r: Stage)
    requires ProxyFreeAsRead(s)
    ensures ProxyFreeAsRead(r.store)
  {
    match n
    case NormInt => NormIntStep(s)
    case NormTuples => NormTuplesStep(s)
    case NormBoolean => NormBooleanStep(s)
    case ValidateProxy => ValidateProxyStep(s)
    case ConvertNamingRule => ConvertNamingRuleStep(s, sep)
    case CheckProxyFreeUrl => ProxyFreeStep(s)
  }

  /** The stages `ns` in order, stopping at the first that raises. */
  function RunStages(ns: seq<StageName>, s: Store, sep: string): Stage
    requires ProxyFreeAsRead(s)
    decreases |ns|
  {
    if ns == [] then Stage(s, Pass)
    else
      var r := RunStage(ns[0], s, sep);
      if r.outcome.Fail? then r else RunStages(ns[1..], r.store, sep)
  }

  /** `Config.validate`. */
  function ValidateStep(s: Store, sep: string): Stage
    requires ProxyFreeAsRead(s)
  {
    RunStages(VALIDATE_ORDER, s, sep)
  }

  /** `t` agrees with `s` on every entry outside `ProxyFree` and `written`. */
  ghost predicate Frame(s: Store, t: Store, written: set<(string, string)>)
  {
    && t.Keys == s.Keys
    && forall sec, k | sec != "ProxyFree" && (sec, k) !in written :: Entry(t, sec, k) == Entry(s, sec, k)
  }

  /** The entries a stage writes outside `ProxyFree`. */
  function Writes(n: StageName): set<(string, string)>
  {
    match n
    case NormInt => {("Network", "retry"), ("Network", "timeout")}
    case NormTuples => {("File", "media_ext"), ("File", "ignore_folder"), ("Crawler", "required_keys")}
    case NormBoolean => BOOLEAN_ENTRIES
    case ValidateProxy => {("Network", "proxy")}
    case ConvertNamingRule => {("NamingRule", "save_dir"), ("NamingRule", "filename")}
    case CheckProxyFreeUrl => {}
  }

  /** A stage writes only its own entries, and only the last one touches `ProxyFree`. */
  lemma StageFrame(n: StageName, s: Store, sep: string)
    requires ProxyFreeAsRead(s)
    ensures Frame(s, RunStage(n, s, sep).store, Writes(n))
    ensures n != CheckProxyFreeUrl ==> SectionKept(s, RunStage(n, s, sep).store, "ProxyFree")
  {
    match n
    case NormInt => NormIntFrame(s);
    case NormTuples => NormTuplesFrame(s);
    case NormBoolean => NormBooleanFrame(s);
    case ValidateProxy => ValidateProxyFrame(s);
    case ConvertNamingRule => ConvertNamingRuleFrame(s, sep);
    case CheckProxyFreeUrl =>
  }

  predicate IsInt(v: Option<Value>) { v.Some? && v.value.Int? }

  predicate IsTuple(v: Option<Value>) { v.Some? && v.value.Tuple? }

  predicate IsBool(v: Option<Value>) { v.Some? && v.value.Bool? }

  predicate IsTemplate(v: Option<Value>) { v.Some? && v.value.Template? }

  /** A proxy descriptor: empty, or `http` and `https` mapped to one matching lower-case address. */
  predicate IsDescriptor(v: Option<Value>)
  {
    && v.Some? && v.value.Proxies?
    && var t := v.value.table;
       t == map[] ||
       (t.Keys == {"http", "https"} && t["http"] == t["https"] &&
        IsProxyAddress(t["http"]) && IsLowerCase(t["http"]))
  }

  /** A checked proxy-free address: `''`, or a lower-case `is_url` address starting with `http`. */
  predicate IsCheckedUrl(v: Value)
  {
    v.Str? && (v.s == "" || (IsLowerCase(v.s) && StartsWith(v.s, "http") && IsUrl(v.s)))
  }

  /** What a completed stage leaves behind: its entries in their typed form. */
  ghost predicate Done(n: StageName, t: Store)
  {
    match n
    case NormInt => IsInt(Entry(t, "Network", "retry")) && IsInt(Entry(t, "Network", "timeout"))
    case NormTuples =>
      && IsTuple(Entry(t, "File", "media_ext"))
      && IsTuple(Entry(t, "File", "ignore_folder"))
      && IsTuple(Entry(t, "Crawler", "required_keys"))
    case NormBoolean => forall p | p in BOOLEAN_ENTRIES :: IsBool(Entry(t, p.0, p.1))
    case ValidateProxy => IsDescriptor(Entry(t, "Network", "proxy"))
    case ConvertNamingRule =>
      IsTemplate(Entry(t, "NamingRule", "save_dir")) && IsTemplate(Entry(t, "NamingRule", "filename"))
    case CheckProxyFreeUrl =>
      "ProxyFree" in t && forall k | k in t["ProxyFree"] :: IsCheckedUrl(t["ProxyFree"][k])
  }

  /** A stage that completes leaves its entries in their typed form. */
  lemma StageDone(n: StageName, s: Store, sep: string)
    requires ProxyFreeAsRead(s)
    ensures RunStage(n, s, sep).outcome.Pass? ==> Done(n, RunStage(n, s, sep).store)
  {
    match n
    case NormInt => NormIntDone(s);
    case NormTuples => NormTuplesDone(s);
    case NormBoolean => NormBooleanDone(s);
    case ValidateProxy => ValidateProxyDone(s);
    case ConvertNamingRule => ConvertNamingRuleDone(s, sep);
    case CheckProxyFreeUrl => ProxyFreeDone(s);
  }

  lemma NormIntDone(s: Store)
    ensures NormIntStep(s).outcome.Pass? ==> Done(NormInt, NormIntStep(s).store)
  {
    NormIntResult(s);
  }

  lemma NormTuplesDone(s: Store)
    ensures NormTuplesStep(s).outcome.Pass? ==> Done(NormTuples, NormTuplesStep(s).store)
  {
    if NormTuplesStep(s).outcome.Pass? {
      NormTuplesEntries(s);
    }
  }

  lemma NormBooleanDone(s: Store)
    ensures NormBooleanStep(s).outcome.Pass? ==> Done(NormBoolean, NormBooleanStep(s).store)
  {
    var r := NormBooleanStep(s);
    if r.outcome.Pass? {
      NormBooleanResult(s);
      forall p | p in BOOLEAN_ENTRIES ensures IsBool(Entry(r.store, p.0, p.1)) {
        assert Entry(r.store, p.0, p.1) == Some(Bool(GetBoolean(s, p.0, p.1).value));
      }
    }
  }

  lemma ValidateProxyDone(s: Store)
    ensures ValidateProxyStep(s).outcome.Pass? ==> Done(ValidateProxy, ValidateProxyStep(s).store)
  {
    ValidateProxyResult(s);
    if GetBoolean(s, "Network", "use_proxy") == Ok(true) && RawText(s, "Network", "proxy").Some? {
      LowerIsLowerCase(RawText(s, "Network", "proxy").value);
    }
  }

  lemma ConvertNamingRuleDone(s: Store, sep: string)
    ensures ConvertNamingRuleStep(s, sep).outcome.Pass? ==> Done(ConvertNamingRule, ConvertNamingRuleStep(s, sep).store)
  {
    ConvertNamingRuleResult(s, sep);
  }

  lemma ProxyFreeDone(s: Store)
    requires ProxyFreeAsRead(s)
    ensures ProxyFreeStep(s).outcome.Pass? ==> Done(CheckProxyFreeUrl, ProxyFreeStep(s).store)
  {
    ProxyFreeResult(s);
  }

  /** Entries outside what a later run writes keep what they held. */
  lemma FrameKeeps(x: Store, t: Store, written: set<(string, string)>, keep: set<(string, string)>)
    requires Frame(x, t, written) && written !! keep
    requires forall p | p in keep :: p.0 != "ProxyFree"
    ensures forall p | p in keep :: Entry(t, p.0, p.1) == Entry(x, p.0, p.1)
  {
  }

  /** Distinct stages write disjoint entries. */
  lemma WritesDisjoint(m: StageName, n: StageName)
    requires m != n
    ensures Writes(m) !! Writes(n)
    ensures forall p | p in Writes(n) :: p.0 != "ProxyFree"
  {
    BooleanEntries();
  }

  /** A store that keeps stage `n`'s entries keeps what it produced. */
  lemma DoneFramed(n: StageName, x: Store, y: Store, written: set<(string, string)>)
    requires n != CheckProxyFreeUrl && Done(n, x)
    requires Frame(x, y, written) && written !! Writes(n)
    requires forall p | p in Writes(n) :: p.0 != "ProxyFree"
    ensures Done(n, y)
  {
    FrameKeeps(x, y, written, Writes(n));
    BooleanEntries();
  }

  /** Any other stage leaves what stage `n` produced in place. */
  lemma DoneKept(n: StageName, m: StageName, x: Store, sep: string)
    requires ProxyFreeAsRead(x) && m != n && Done(n, x)
    ensures Done(n, RunStage(m, x, sep).store)
  {
    StageFrame(m, x, sep);
    if n != CheckProxyFreeUrl {
      WritesDisjoint(m, n);
      DoneFramed(n, x, RunStage(m, x, sep).store, Writes(m));
    }
  }

  /** A completed stage's entries survive every later stage, whether or not they complete. */
  lemma {:induction false} DoneKeptThrough(n: StageName, ms: seq<StageName>, x: Store, sep: string)
    requires ProxyFreeAsRead(x) && n !in ms && Done(n, x)
    ensures Done(n, RunStages(ms, x, sep).store)
    decreases |ms|
  {
    if ms != [] {
      DoneKept(n, ms[0], x, sep);
      var r := RunStage(ms[0], x, sep);
      if r.outcome.Pass? {
        DoneKeptThrough(n, ms[1..], r.store, sep);
      }
    }
  }

  /** The union of what the stages `ns` write. */
  function WritesAll(ns: seq<StageName>): set<(string, string)>
  {
    if ns == [] then {} else Writes(ns[0]) + WritesAll(ns[1..])
  }

  /**
   * Running distinct stages: when all complete, each one's entries are in
   * their typed form; in any case only their entries (and `ProxyFree`) change.
   */
  lemma {:induction false} RunStagesResult(ns: seq<StageName>, s: Store, sep: string)
    requires ProxyFreeAsRead(s)
    requires forall i, j | 0 <= i < j < |ns| :: ns[i] != ns[j]
    ensures RunStages(ns, s, sep).outcome.Pass? ==>
      forall n | n in ns :: Done(n, RunStages(ns, s, sep).store)
    ensures Frame(s, RunStages(ns, s, sep).store, WritesAll(ns))
    decreases |ns|
  {
    if ns != [] {
      var r := RunStage(ns[0], s, sep);
      StageFrame(ns[0], s, sep);
      if r.outcome.Pass? {
        var rest := ns[1..];
        assert forall i, j | 0 <= i < j < |rest| :: rest[i] != rest[j] by {
          forall i, j | 0 <= i < j < |rest| ensures rest[i] != rest[j] {
            assert rest[i] == ns[i + 1] && rest[j] == ns[j + 1];
          }
        }
        RunStagesResult(rest, r.store, sep);
        StageDone(ns[0], s, sep);
        assert ns[0] !in rest by {
          forall j | 0 <= j < |rest| ensures rest[j] != ns[0] {
            assert rest[j] == ns[j + 1];
          }
        }
        DoneKeptThrough(ns[0], rest, r.store, sep);
        assert forall n | n in ns :: n == ns[0] || n in rest;
      }
    }
  }

  /** The entries the pipeline rewrites outside `ProxyFree`. */
  const CONVERTED: set<(string, string)> :=
    {("Network", "retry"), ("Network", "timeout"),
     ("File", "media_ext"), ("File", "ignore_folder"), ("Crawler", "required_keys")} +
    BOOLEAN_ENTRIES + {("Network", "proxy"), ("NamingRule", "save_dir"), ("NamingRule", "filename")}

  /**
   * When `validate` completes, every converted entry has its typed form and
   * every proxy-free address is checked; in any case the sections are the
   * ones it started with and every entry it does not convert is as it was.
   */
  lemma ValidateResult(s: Store, sep: string)
    requires ProxyFreeAsRead(s)
    ensures ValidateStep(s, sep).outcome.Pass? ==>
      forall n | n in VALIDATE_ORDER :: Done(n, ValidateStep(s, sep).store)
    ensures Frame(s, ValidateStep(s, sep).store, CONVERTED)
  {
    RunStagesResult(VALIDATE_ORDER, s, sep);
    ValidateWrites();
  }

  /** The six stages together write exactly the converted entries. */
  lemma ValidateWrites()
    ensures WritesAll(VALIDATE_ORDER) == CONVERTED
  {
    var o := VALIDATE_ORDER;
    assert WritesAll(o[5..]) == {};
    assert WritesAll(o[4..]) == Writes(ConvertNamingRule);
    assert WritesAll(o[3..]) == Writes(ValidateProxy) + Writes(ConvertNamingRule);
    assert WritesAll(o[2..]) == Writes(NormBoolean) + WritesAll(o[3..]);
    assert WritesAll(o[1..]) == Writes(NormTuples) + WritesAll(o[2..]);
  }

  // ---------------------------------------------------------------------
  // What validate computes from the file
  // ---------------------------------------------------------------------

  /** The entries a stage reads outside `ProxyFree`. */
  function Reads(n: StageName): set<(string, string)>
  {
    match n
    case NormInt => Writes(NormInt)
    case NormTuples => Writes(NormTuples)
    case NormBoolean => BOOLEAN_ENTRIES
    case ValidateProxy => {("Network", "use_proxy"), ("Network", "proxy")}
    case ConvertNamingRule => {("NamingRule", "output_folder"), ("NamingRule", "save_dir"), ("NamingRule", "filename")}
    case CheckProxyFreeUrl => {}
  }

  /** What stage `n` needs of the file as read, `s`, to complete. */
  ghost predicate Ready(n: StageName, s: Store)
  {
    match n
    case NormInt => GetInt(s, "Network", "retry").Ok? && GetInt(s, "Network", "timeout").Ok?
    case NormTuples =>
      && RawText(s, "File", "media_ext").Some?
      && RawText(s, "File", "ignore_folder").Some?
      && RawText(s, "Crawler", "required_keys").Some?
    case NormBoolean => forall p | p in BOOLEAN_ENTRIES :: GetBoolean(s, p.0, p.1).Ok?
    case ValidateProxy =>
      || GetBoolean(s, "Network", "use_proxy") == Ok(false)
      || (GetBoolean(s, "Network", "use_proxy") == Ok(true) && RawText(s, "Network", "proxy").Some?)
    case ConvertNamingRule =>
      RawText(s, "NamingRule", "output_folder").Some? && RawText(s, "NamingRule", "save_dir").Some?
    case CheckProxyFreeUrl => "ProxyFree" in s
  }

  /** Stage `n`'s entries in `t` hold what the stage computes from the file as read, `s`, with `os.sep` as `sep`. */
  ghost predicate Valued(n: StageName, s: Store, t: Store, sep: string)
  {
    match n
    case NormInt =>
      && GetInt(s, "Network", "retry").Ok? && GetInt(s, "Network", "timeout").Ok?
      && Entry(t, "Network", "retry") == Some(Int(GetInt(s, "Network", "retry").value))
      && Entry(t, "Network", "timeout") == Some(Int(GetInt(s, "Network", "timeout").value))
    case NormTuples =>
      && RawText(s, "File", "media_ext").Some?
      && RawText(s, "File", "ignore_folder").Some?
      && RawText(s, "Crawler", "required_keys").Some?
      && Entry(t, "File", "media_ext") == Some(Tuple(MediaExts(RawText(s, "File", "media_ext").value)))
      && Entry(t, "File", "ignore_folder") == Some(Tuple(Split(RawText(s, "File", "ignore_folder").value, ';')))
      && Entry(t, "Crawler", "required_keys") == Some(Tuple(Split(RawText(s, "Crawler", "required_keys").value, ',')))
    case NormBoolean =>
      forall p | p in BOOLEAN_ENTRIES ::
        GetBoolean(s, p.0, p.1).Ok? && Entry(t, p.0, p.1) == Some(Bool(GetBoolean(s, p.0, p.1).value))
    case ValidateProxy =>
      || (GetBoolean(s, "Network", "use_proxy") == Ok(false) && Entry(t, "Network", "proxy") == Some(Proxies(map[])))
      || (&& GetBoolean(s, "Network", "use_proxy") == Ok(true) && RawText(s, "Network", "proxy").Some?
          && Entry(t, "Network", "proxy") == Some(Proxies(ProxyTable(RawText(s, "Network", "proxy").value))))
    case ConvertNamingRule =>
      && RawText(s, "NamingRule", "output_folder").Some? && RawText(s, "NamingRule", "save_dir").Some?
      && Entry(t, "NamingRule", "save_dir") ==
           Some(Template(Some(Str(RawText(s, "NamingRule", "output_folder").value + sep + RawText(s, "NamingRule", "save_dir").value))))
      && Entry(t, "NamingRule", "filename") == Some(Template(Entry(s, "NamingRule", "filename")))
    case CheckProxyFreeUrl =>
      && "ProxyFree" in s && "ProxyFree" in t && t["ProxyFree"].Keys == s["ProxyFree"].Keys
      && forall k | k in t["ProxyFree"] ::
           s["ProxyFree"][k].Str? && t["ProxyFree"][k] == Str(NormalizeUrl(s["ProxyFree"][k].s))
  }

  /** `x` has the sections of `s` and agrees with it on `entries`. */
  ghost predicate Agrees(s: Store, x: Store, entries: set<(string, string)>)
  {
    x.Keys == s.Keys && forall p | p in entries :: Entry(x, p.0, p.1) == Entry(s, p.0, p.1)
  }

  /** The three readers see only the sections and the entry they read. */
  lemma ReadsAgree(s: Store, x: Store, sec: string, k: string)
    requires x.Keys == s.Keys && Entry(x, sec, k) == Entry(s, sec, k)
    ensures GetInt(x, sec, k) == GetInt(s, sec, k)
    ensures GetBoolean(x, sec, k) == GetBoolean(s, sec, k)
    ensures RawText(x, sec, k) == RawText(s, sec, k)
  {
    assert ConfigGet(x, sec, k) == ConfigGet(s, sec, k);
  }

  /**
   * A stage run on a store that agrees with the file as read on what the
   * stage reads completes exactly when the file is ready for it, and then
   * computes its entries from the file.
   */
  lemma StageValue(n: StageName, s: Store, x: Store, sep: string)
    requires ProxyFreeAsRead(s) && ProxyFreeAsRead(x) && Agrees(s, x, Reads(n))
    requires n == CheckProxyFreeUrl ==> SectionKept(s, x, "ProxyFree")
    ensures RunStage(n, x, sep).outcome.Pass? <==> Ready(n, s)
    ensures RunStage(n, x, sep).outcome.Pass? ==> Valued(n, s, RunStage(n, x, sep).store, sep)
  {
    match n
    case NormInt => NormIntValue(s, x);
    case NormTuples => NormTuplesValue(s, x);
    case NormBoolean => NormBooleanValue(s, x);
    case ValidateProxy => ValidateProxyValue(s, x);
    case ConvertNamingRule => ConvertNamingRuleValue(s, x, sep);
    case CheckProxyFreeUrl =>
  }

  lemma NormIntValue(s: Store, x: Store)
    requires Agrees(s, x, Reads(NormInt))
    ensures NormIntStep(x).outcome.Pass? <==> Ready(NormInt, s)
    ensures NormIntStep(x).outcome.Pass? ==> Valued(NormInt, s, NormIntStep(x).store, "")
  {
    ReadsAgree(s, x, "Network", "retry");
    ReadsAgree(s, x, "Network", "timeout");
    NormIntResult(x);
  }

  lemma NormTuplesValue(s: Store, x: Store)
    requires Agrees(s, x, Reads(NormTuples))
    ensures NormTuplesStep(x).outcome.Pass? <==> Ready(NormTuples, s)
    ensures NormTuplesStep(x).outcome.Pass? ==> Valued(NormTuples, s, NormTuplesStep(x).store, "")
  {
    ReadsAgree(s, x, "File", "media_ext");
    ReadsAgree(s, x, "File", "ignore_folder");
    ReadsAgree(s, x, "Crawler", "required_keys");
    NormTuplesResult(x);
    if NormTuplesStep(x).outcome.Pass? {
      NormTuplesSplits(x);
    }
  }

  lemma NormBooleanValue(s: Store, x: Store)
    requires Agrees(s, x, Reads(NormBoolean))
    ensures NormBooleanStep(x).outcome.Pass? <==> Ready(NormBoolean, s)
    ensures NormBooleanStep(x).outcome.Pass? ==> Valued(NormBoolean, s, NormBooleanStep(x).store, "")
  {
    forall p | p in BOOLEAN_ENTRIES ensures GetBoolean(x, p.0, p.1) == GetBoolean(s, p.0, p.1) {
      ReadsAgree(s, x, p.0, p.1);
    }
    NormBooleanResult(x);
  }

  lemma ValidateProxyValue(s: Store, x: Store)
    requires Agrees(s, x, Reads(ValidateProxy))
    ensures ValidateProxyStep(x).outcome.Pass? <==> Ready(ValidateProxy, s)
    ensures ValidateProxyStep(x).outcome.Pass? ==> Valued(ValidateProxy, s, ValidateProxyStep(x).store, "")
  {
    ReadsAgree(s, x, "Network", "use_proxy");
    ReadsAgree(s, x, "Network", "proxy");
  }

  lemma ConvertNamingRuleValue(s: Store, x: Store, sep: string)
    requires Agrees(s, x, Reads(ConvertNamingRule))
    ensures ConvertNamingRuleStep(x, sep).outcome.Pass? <==> Ready(ConvertNamingRule, s)
    ensures ConvertNamingRuleStep(x, sep).outcome.Pass? ==>
      Valued(ConvertNamingRule, s, ConvertNamingRuleStep(x, sep).store, sep)
  {
    ReadsAgree(s, x, "NamingRule", "output_folder");
    ReadsAgree(s, x, "NamingRule", "save_dir");
    ConvertNamingRuleResult(x, sep);
  }

  /** No stage reads what another stage writes, so the order of the stages does not change what each reads. */
  lemma WritesUnread(m: StageName, n: StageName)
    requires m != n
    ensures Writes(m) !! Reads(n)
    ensures forall p | p in Reads(n) :: p.0 != "ProxyFree"
  {
    WritesDisjoint(m, n);
    BooleanEntries();
    assert Reads(n) <= Writes(n) + {("Network", "use_proxy"), ("NamingRule", "output_folder")};
  }

  /** Stages each run once, of which only the last may touch `ProxyFree`. */
  predicate Ordered(ns: seq<StageName>)
  {
    && (forall i, j | 0 <= i < j < |ns| :: ns[i] != ns[j])
    && (forall i | 0 <= i < |ns| - 1 :: ns[i] != CheckProxyFreeUrl)
  }

  /** Past the first of ordered stages: the rest are ordered and do not hold the first. */
  lemma OrderedRest(ns: seq<StageName>)
    requires Ordered(ns) && ns != []
    ensures Ordered(ns[1..]) && ns[0] !in ns[1..]
    ensures ns[1..] != [] ==> ns[0] != CheckProxyFreeUrl
    ensures forall m | m in ns :: m == ns[0] || m in ns[1..]
  {
    var rest := ns[1..];
    forall i, j | 0 <= i < j < |rest| ensures rest[i] != rest[j] {
      assert rest[i] == ns[i + 1] && rest[j] == ns[j + 1];
    }
    forall i | 0 <= i < |rest| - 1 ensures rest[i] != CheckProxyFreeUrl {
      assert rest[i] == ns[i + 1];
    }
    forall j | 0 <= j < |rest| ensures rest[j] != ns[0] {
      assert rest[j] == ns[j + 1];
    }
  }

  /** A stage keeps, for every other stage, the agreement with the file on what that stage reads. */
  lemma AgreesAfter(n: StageName, s: Store, x: Store, sep: string, rest: seq<StageName>)
    requires ProxyFreeAsRead(x) && n !in rest
    requires forall m | m in rest :: Agrees(s, x, Reads(m))
    requires CheckProxyFreeUrl in rest ==> SectionKept(s, x, "ProxyFree")
    ensures forall m | m in rest :: Agrees(s, RunStage(n, x, sep).store, Reads(m))
    ensures CheckProxyFreeUrl in rest ==> SectionKept(s, RunStage(n, x, sep).store, "ProxyFree")
  {
    StageFrame(n, x, sep);
    forall m | m in rest ensures Agrees(s, RunStage(n, x, sep).store, Reads(m)) {
      WritesUnread(n, m);
    }
  }

  /** A stage writes nothing that distinct other stages write. */
  lemma {:induction false} WritesAllDisjoint(n: StageName, ns: seq<StageName>)
    requires n !in ns
    ensures Writes(n) !! WritesAll(ns)
    decreases |ns|
  {
    if ns != [] {
      WritesDisjoint(ns[0], n);
      WritesAllDisjoint(n, ns[1..]);
    }
  }

  /** What stage `n` computed survives a run that writes none of its entries. */
  lemma ValuedFramed(n: StageName, s: Store, y: Store, z: Store, written: set<(string, string)>, sep: string)
    requires n != CheckProxyFreeUrl && Valued(n, s, y, sep)
    requires Frame(y, z, written) && written !! Writes(n)
    ensures Valued(n, s, z, sep)
  {
    match n
    case NormBoolean =>
      BooleanEntries();
      FrameKeeps(y, z, written, BOOLEAN_ENTRIES);
    case _ =>
      FrameKeeps(y, z, written, Writes(n));
  }

  /**
   * Ordered stages run on a store that agrees with the file as read on
   * what they read: the run completes exactly when the file is ready for
   * every stage, and then every stage's entries hold what it computes from
   * the file.
   */
  lemma {:induction false} RunStagesValues(ns: seq<StageName>, s: Store, x: Store, sep: string)
    requires ProxyFreeAsRead(s) && ProxyFreeAsRead(x) && Ordered(ns)
    requires forall n | n in ns :: Agrees(s, x, Reads(n))
    requires CheckProxyFreeUrl in ns ==> SectionKept(s, x, "ProxyFree")
    ensures RunStages(ns, x, sep).outcome.Pass? <==> forall n | n in ns :: Ready(n, s)
    ensures RunStages(ns, x, sep).outcome.Pass? ==>
      forall n | n in ns :: Valued(n, s, RunStages(ns, x, sep).store, sep)
    decreases |ns|
  {
    if ns != [] {
      var n, rest := ns[0], ns[1..];
      var r := RunStage(n, x, sep);
      StageValue(n, s, x, sep);
      OrderedRest(ns);
      if r.outcome.Pass? {
        AgreesAfter(n, s, x, sep, rest);
        RunStagesValues(rest, s, r.store, sep);
        var t := RunStages(rest, r.store, sep);
        if t.outcome.Pass? && rest != [] {
          RunStagesResult(rest, r.store, sep);
          WritesAllDisjoint(n, rest);
          ValuedFramed(n, s, r.store, t.store, WritesAll(rest), sep);
        }
      }
    }
  }

  /**
   * `validate` completes exactly when the file as read is ready for every
   * stage; it then leaves every converted entry holding what its stage
   * computes from the file: the integers of `retry` and `timeout`, the
   * extensions and splits, the five booleans, the proxies table of the
   * address (or `{}`), the two templates and the normalised addresses.
   */
  lemma ValidateValues(s: Store, sep: string)
    requires ProxyFreeAsRead(s)
    ensures ValidateStep(s, sep).outcome.Pass? <==> forall n: StageName :: Ready(n, s)
    ensures ValidateStep(s, sep).outcome.Pass? ==>
      forall n: StageName :: Valued(n, s, ValidateStep(s, sep).store, sep)
  {
    AllStages();
    RunStagesValues(VALIDATE_ORDER, s, s, sep);
  }

  /** `validate` runs every stage once, and `check_proxy_free_url` last. */
  lemma AllStages()
    ensures Ordered(VALIDATE_ORDER)
    ensures forall n: StageName :: n in VALIDATE_ORDER
  {
    forall n: StageName ensures n in VALIDATE_ORDER {
      match n
      case NormInt => assert VALIDATE_ORDER[0] == n;
      case NormTuples => assert VALIDATE_ORDER[1] == n;
      case NormBoolean => assert VALIDATE_ORDER[2] == n;
      case ValidateProxy => assert VALIDATE_ORDER[3] == n;
      case ConvertNamingRule => assert VALIDATE_ORDER[4] == n;
      case CheckProxyFreeUrl => assert VALIDATE_ORDER[5] == n;
    }
  }

  /**
   * A small file: `retry = 3`, `timeout = 10`, `media_ext = mp4;AVI`,
   * `use_proxy = false`, the other flags off and no proxy-free site.
   */
  const EXAMPLE_FILE: Store := map[
    "Network" := EXAMPLE_NETWORK,
    "File" := map["media_ext" := Str("mp4;AVI"), "ignore_folder" := Str("")],
    "Crawler" := EXAMPLE_CRAWLER,
    "Picture" := map["use_big_cover" := Str("false")],
    "NFO" := map["add_genre_to_tag" := Str("false")],
    "NamingRule" := EXAMPLE_NAMING,
    "ProxyFree" := map[]
  ]

  /**
   * `validate` completes on the small file and leaves the integers 3 and
   * 10, the extensions `.mp4` and `.avi`, and the proxy switched off.
   */
  lemma ValidateExample(sep: string)
    ensures ValidateStep(EXAMPLE_FILE, sep).outcome.Pass?
    ensures var t := ValidateStep(EXAMPLE_FILE, sep).store;
      && Entry(t, "Network", "retry") == Some(Int(3))
      && Entry(t, "Network", "timeout") == Some(Int(10))
      && Entry(t, "File", "media_ext") == Some(Tuple([".mp4", ".avi"]))
      && Entry(t, "Network", "proxy") == Some(Proxies(map[]))
  {
    ExampleReady();
    ExampleValues(EXAMPLE_FILE, sep);
  }

  /** What `validate` leaves from the example's four settings, on any file ready for it. */
  lemma ExampleValues(s: Store, sep: string)
    requires ProxyFreeAsRead(s) && forall n: StageName :: Ready(n, s)
    requires GetInt(s, "Network", "retry") == Ok(3) && GetInt(s, "Network", "timeout") == Ok(10)
    requires RawText(s, "File", "media_ext") == Some("mp4;AVI")
    requires GetBoolean(s, "Network", "use_proxy") == Ok(false)
    ensures ValidateStep(s, sep).outcome.Pass?
    ensures var t := ValidateStep(s, sep).store;
      && Entry(t, "Network", "retry") == Some(Int(3))
      && Entry(t, "Network", "timeout") == Some(Int(10))
      && Entry(t, "File", "media_ext") == Some(Tuple([".mp4", ".avi"]))
      && Entry(t, "Network", "proxy") == Some(Proxies(map[]))
  {
    ValidateValues(s, sep);
    assert Valued(NormInt, s, ValidateStep(s, sep).store, sep);
    assert Valued(NormTuples, s, ValidateStep(s, sep).store, sep);
    assert Valued(ValidateProxy, s, ValidateStep(s, sep).store, sep);
    MediaExtsExample();
  }

  /** The small file is ready for every stage, with `3` and `10` read as integers. */
  lemma ExampleReady()
    ensures ProxyFreeAsRead(EXAMPLE_FILE) && forall n: StageName :: Ready(n, EXAMPLE_FILE)
    ensures GetInt(EXAMPLE_FILE, "Network", "retry") == Ok(3)
    ensures GetInt(EXAMPLE_FILE, "Network", "timeout") == Ok(10)
    ensures RawText(EXAMPLE_FILE, "File", "media_ext") == Some("mp4;AVI")
    ensures GetBoolean(EXAMPLE_FILE, "Network", "use_proxy") == Ok(false)
  {
    ExampleSections();
    ExampleNetwork();
    ExampleFlags();
    forall n: StageName ensures Ready(n, EXAMPLE_FILE) {
      match n
      case NormInt =>
      case NormTuples =>
      case NormBoolean =>
      case ValidateProxy =>
      case ConvertNamingRule =>
      case CheckProxyFreeUrl =>
    }
  }

  const EXAMPLE_NETWORK: SectionMap :=
    map["retry" := Str("3"), "timeout" := Str("10"), "use_proxy" := Str("false"), "proxy" := Str("")]

  const EXAMPLE_CRAWLER: SectionMap :=
    map["required_keys" := Str("title"), "hardworking_mode" := Str("false"),
        "title__remove_actor" := Str("false"), "title__chinese_first" := Str("false")]

  const EXAMPLE_NAMING: SectionMap := map["output_folder" := Str("out"), "save_dir" := Str("dir")]

  /** The sections of the small file. */
  lemma ExampleSections()
    ensures EXAMPLE_FILE.Keys == {"Network", "File", "Crawler", "Picture", "NFO", "NamingRule", "ProxyFree"}
    ensures EXAMPLE_FILE["Network"] == EXAMPLE_NETWORK
    ensures EXAMPLE_FILE["File"] == map["media_ext" := Str("mp4;AVI"), "ignore_folder" := Str("")]
    ensures EXAMPLE_FILE["Crawler"] == EXAMPLE_CRAWLER
    ensures EXAMPLE_FILE["Picture"] == map["use_big_cover" := Str("false")]
    ensures EXAMPLE_FILE["NFO"] == map["add_genre_to_tag" := Str("false")]
    ensures EXAMPLE_FILE["NamingRule"] == EXAMPLE_NAMING
    ensures EXAMPLE_FILE["ProxyFree"] == map[]
  {
  }

  /** The `Network` settings of the small file, as `getint` and `getboolean` read them. */
  lemma ExampleNetwork()
    ensures "retry" in EXAMPLE_NETWORK && EXAMPLE_NETWORK["retry"] == Str("3")
    ensures "timeout" in EXAMPLE_NETWORK && EXAMPLE_NETWORK["timeout"] == Str("10")
    ensures "use_proxy" in EXAMPLE_NETWORK && EXAMPLE_NETWORK["use_proxy"] == Str("false")
    ensures ParseInt("3") == Some(3) && ParseInt("10") == Some(10) && ParseBool("false") == Some(false)
  {
    ParseBoolSpellings();
    ParseIntOfDigits("3");
    ParseIntOfDigits("10");
    assert "10"[..1] == "1";
  }

  /** The flags and the naming entries of the small file. */
  lemma ExampleFlags()
    ensures "hardworking_mode" in EXAMPLE_CRAWLER && EXAMPLE_CRAWLER["hardworking_mode"] == Str("false")
    ensures "title__remove_actor" in EXAMPLE_CRAWLER && EXAMPLE_CRAWLER["title__remove_actor"] == Str("false")
    ensures "title__chinese_first" in EXAMPLE_CRAWLER && EXAMPLE_CRAWLER["title__chinese_first"] == Str("false")
    ensures "required_keys" in EXAMPLE_CRAWLER && EXAMPLE_CRAWLER["required_keys"].Str?
    ensures "output_folder" in EXAMPLE_NAMING && EXAMPLE_NAMING["output_folder"].Str?
    ensures "save_dir" in EXAMPLE_NAMING && EXAMPLE_NAMING["save_dir"].Str?
  {
  }

  // ---------------------------------------------------------------------
  // overwrite_cfg
  // ---------------------------------------------------------------------

  /** The parsed command line, as far as `overwrite_cfg` reads it (`-i`, `-o`, `-x`). */
  datatype CliArgs = CliArgs(input: Option<string>, output: Option<string>, proxy: Option<string>)

  /** The part of `overwrite_cfg` after the proxy flag: `-i` sets `File.scan_dir`, then `-o` sets `NamingRule.output_folder`. */
  function OverlayPaths(s: Store, args: CliArgs): (r: Stage)
    ensures Unchanged(s, r.store, {("File", "scan_dir"), ("NamingRule", "output_folder")})
  {
    if NonEmpty(args.input) && "File" !in s then Stage(s, Fail(KeyError("File")))
    else
      var s1 := if NonEmpty(args.input) then Put(s, "File", "scan_dir", Str(args.input.value)) else s;
      if NonEmpty(args.output) && "NamingRule" !in s1 then Stage(s1, Fail(KeyError("NamingRule")))
      else
        var s2 := if NonEmpty(args.output) then Put(s1, "NamingRule", "output_folder", Str(args.output.value)) else s1;
        Stage(s2, Pass)
  }

  /** Differing only at `x`, then only at `y`, is differing only at `x + y`. */
  lemma UnchangedTrans(s: Store, t: Store, u: Store, x: set<(string, string)>, y: set<(string, string)>)
    requires Unchanged(s, t, x) && Unchanged(t, u, y)
    ensures Unchanged(s, u, x + y)
  {
  }

  /** `overwrite_cfg` as written: the proxy flag writes `'yes'`, then the address, into `Network.proxy`. */
  function OverwriteStep(s: Store, args: CliArgs): (r: Stage)
    ensures Unchanged(s, r.store, {("Network", "proxy"), ("File", "scan_dir"), ("NamingRule", "output_folder")})
  {
    if NonEmpty(args.proxy) && "Network" !in s then Stage(s, Fail(KeyError("Network")))
    else
      var s1 := ProxyWritten(s, args);
      UnchangedTrans(s, s1, OverlayPaths(s1, args).store,
        {("Network", "proxy")}, {("File", "scan_dir"), ("NamingRule", "output_folder")});
      OverlayPaths(s1, args)
  }

  /** The `-i` and `-o` part fails only for a missing section, and sets exactly the entries given. */
  lemma OverlayPathsResult(s: Store, args: CliArgs)
    ensures OverlayPaths(s, args).outcome.Pass? <==>
      (NonEmpty(args.input) ==> "File" in s) && (NonEmpty(args.output) ==> "NamingRule" in s)
    ensures OverlayPaths(s, args).outcome.Pass? ==>
      var t := OverlayPaths(s, args).store;
      && Entry(t, "File", "scan_dir") == (if NonEmpty(args.input) then Some(Str(args.input.value)) else Entry(s, "File", "scan_dir"))
      && Entry(t, "NamingRule", "output_folder") ==
           (if NonEmpty(args.output) then Some(Str(args.output.value)) else Entry(s, "NamingRule", "output_folder"))
  {
  }

  /** The overlay fails only when a given option's section is missing. */
  lemma OverwriteResult(s: Store, args: CliArgs)
    ensures OverwriteStep(s, args).outcome.Pass? <==>
      && (NonEmpty(args.proxy) ==> "Network" in s)
      && (NonEmpty(args.input) ==> "File" in s)
      && (NonEmpty(args.output) ==> "NamingRule" in s)
  {
    if !(NonEmpty(args.proxy) && "Network" !in s) {
      OverlayPathsResult(ProxyWritten(s, args), args);
    }
  }

  /** The store after the proxy flag's two writes, if it was given. */
  function ProxyWritten(s: Store, args: CliArgs): (r: Store)
    requires NonEmpty(args.proxy) ==> "Network" in s
    ensures r.Keys == s.Keys
  {
    if NonEmpty(args.proxy)
    then Put(Put(s, "Network", "proxy", Str("yes")), "Network", "proxy", Str(args.proxy.value))
    else s
  }

  /**
   * After the overlay, a given `-x` leaves `Network.proxy` equal to the
   * address and `Network.use_proxy` as it was; `-i` sets `File.scan_dir`,
   * `-o` sets `NamingRule.output_folder`; an option not given changes
   * nothing.
   */
  lemma OverwriteEntries(s: Store, args: CliArgs)
    requires OverwriteStep(s, args).outcome.Pass?
    ensures var t := OverwriteStep(s, args).store;
      && Entry(t, "Network", "proxy") == (if NonEmpty(args.proxy) then Some(Str(args.proxy.value)) else Entry(s, "Network", "proxy"))
      && Entry(t, "File", "scan_dir") == (if NonEmpty(args.input) then Some(Str(args.input.value)) else Entry(s, "File", "scan_dir"))
      && Entry(t, "NamingRule", "output_folder") ==
           (if NonEmpty(args.output) then Some(Str(args.output.value)) else Entry(s, "NamingRule", "output_folder"))
      && Entry(t, "Network", "use_proxy") == Entry(s, "Network", "use_proxy")
  {
    var s1 := ProxyWritten(s, args);
    assert OverwriteStep(s, args) == OverlayPaths(s1, args);
    OverlayPathsResult(s1, args);
  }

  /** The store after the intended proxy flag's two writes, if it was given: `use_proxy` on, then the address. */
  function ProxyEnabled(s: Store, args: CliArgs): (r: Store)
    requires NonEmpty(args.proxy) ==> "Network" in s
    ensures r.Keys == s.Keys
  {
    if NonEmpty(args.proxy)
    then Put(Put(s, "Network", "use_proxy", Str("yes")), "Network", "proxy", Str(args.proxy.value))
    else s
  }

  /** The evidently intended overlay: `-x` turns `use_proxy` on and sets the address. */
  function OverwriteIntendedStep(s: Store, args: CliArgs): (r: Stage)
    ensures Unchanged(s, r.store,
      {("Network", "use_proxy"), ("Network", "proxy"), ("File", "scan_dir"), ("NamingRule", "output_folder")})
  {
    if NonEmpty(args.proxy) && "Network" !in s then Stage(s, Fail(KeyError("Network")))
    else
      var s1 := ProxyEnabled(s, args);
      UnchangedTrans(s, s1, OverlayPaths(s1, args).store,
        {("Network", "use_proxy"), ("Network", "proxy")}, {("File", "scan_dir"), ("NamingRule", "output_folder")});
      OverlayPaths(s1, args)
  }

  /** The intended overlay fails exactly where the written one does. */
  lemma OverwriteIntendedResult(s: Store, args: CliArgs)
    ensures OverwriteIntendedStep(s, args).outcome.Pass? <==>
      && (NonEmpty(args.proxy) ==> "Network" in s)
      && (NonEmpty(args.input) ==> "File" in s)
      && (NonEmpty(args.output) ==> "NamingRule" in s)
  {
    if !(NonEmpty(args.proxy) && "Network" !in s) {
      OverlayPathsResult(ProxyEnabled(s, args), args);
    }
  }

  /**
   * After the intended overlay, a given `-x` leaves `Network.use_proxy`
   * equal to `yes` and `Network.proxy` equal to the address; `-i` and `-o`
   * act as in the written overlay; an option not given changes nothing.
   */
  lemma OverwriteIntendedEntries(s: Store, args: CliArgs)
    requires OverwriteIntendedStep(s, args).outcome.Pass?
    ensures var t := OverwriteIntendedStep(s, args).store;
      && Entry(t, "Network", "use_proxy") == (if NonEmpty(args.proxy) then Some(Str("yes")) else Entry(s, "Network", "use_proxy"))
      && Entry(t, "Network", "proxy") == (if NonEmpty(args.proxy) then Some(Str(args.proxy.value)) else Entry(s, "Network", "proxy"))
      && Entry(t, "File", "scan_dir") == (if NonEmpty(args.input) then Some(Str(args.input.value)) else Entry(s, "File", "scan_dir"))
      && Entry(t, "NamingRule", "output_folder") ==
           (if NonEmpty(args.output) then Some(Str(args.output.value)) else Entry(s, "NamingRule", "output_folder"))
  {
    var s1 := ProxyEnabled(s, args);
    assert OverwriteIntendedStep(s, args) == OverlayPaths(s1, args);
    OverlayPathsResult(s1, args);
  }

  /**
   * As written, `-x` with a well-formed address is lost when the file says
   * `use_proxy = no`: after the overlay, `validate_proxy` still produces the
   * empty descriptor.
   */
  lemma OverwriteProxyIgnored(s: Store, address: string)
    requires Entry(s, "Network", "use_proxy") == Some(Str("no"))
    requires IsProxyAddress(Lower(address))
    ensures var o := OverwriteStep(s, CliArgs(None, None, Some(address)));
      && o.outcome.Pass?
      && Entry(ValidateProxyStep(o.store).store, "Network", "proxy") == Some(Proxies(map[]))
  {
    var o := OverwriteStep(s, CliArgs(None, None, Some(address)));
    assert Lower("no") == "no";
    assert GetBoolean(o.store, "Network", "use_proxy") == Ok(false);
  }

  /**
   * With the intended overlay, `-x` with a well-formed address gives the
   * descriptor mapping `http` and `https` to it whatever `use_proxy` said.
   */
  lemma OverwriteIntendedHonoursProxy(s: Store, address: string)
    requires "Network" in s
    requires IsProxyAddress(Lower(address))
    ensures var o := OverwriteIntendedStep(s, CliArgs(None, None, Some(address)));
      var p := Lower(address);
      && o.outcome.Pass?
      && ValidateProxyStep(o.store).outcome.Pass?
      && Entry(ValidateProxyStep(o.store).store, "Network", "proxy") == Some(Proxies(map["http" := p, "https" := p]))
  {
    var args := CliArgs(None, None, Some(address));
    assert address != "" by {
      ProxySchemePrefix(Lower(address));
    }
    var s1 := ProxyEnabled(s, args);
    assert OverwriteIntendedStep(s, args) == Stage(s1, Pass);
    assert Lower("yes") == "yes";
    assert GetBoolean(s1, "Network", "use_proxy") == Ok(true);
    ValidateProxyOn(s1, address);
    ProxyTableOf(address);
  }
}

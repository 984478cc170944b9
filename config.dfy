/**
 * `Config`: the parsed configuration whose sections the stages of
 * `validate` and the command-line overlay update in place. Each method is
 * proved to leave the store, and to report the outcome, that the matching
 * function of `Normalize` gives for the store it started from; what those
 * functions promise is proved there.
 */
module CoreConfig {
  import opened Wrappers
  import opened PyStr
  import opened ConfigStore
  import opened UrlGrammar
  import opened Normalize

  class Config {
    /** The sections and their entries (`ConfigParser._sections`). */
    var sections: Store

    /** `Config()` followed by `read`: the file's contents, parsed, are `read`. */
    constructor (read: Store)
      ensures sections == read
    {
      sections := read;
    }

    /** `norm_int`. */
    method NormInt() returns (outcome: Outcome)
      modifies this
      ensures Stage(sections, outcome) == NormIntStep(old(sections))
    {
      var retry := GetInt(sections, "Network", "retry");
      if retry.Err? {
        return Fail(retry.error);
      }
      sections := Put(sections, "Network", "retry", Int(retry.value));
      var timeout := GetInt(sections, "Network", "timeout");
      if timeout.Err? {
        return Fail(timeout.error);
      }
      sections := Put(sections, "Network", "timeout", Int(timeout.value));
      return Pass;
    }

    /** `norm_tuples`. */
    method NormTuples() returns (outcome: Outcome)
      modifies this
      ensures Stage(sections, outcome) == NormTuplesStep(old(sections))
    {
      if "File" !in sections {
        return Fail(KeyError("File"));
      }
      var media := DotGet(sections["File"], "media_ext");
      if !(media.Some? && media.value.Str?) {
        return Fail(NotAString("File", "media_ext"));
      }
      var items := Split(Lower(media.value.s), ';');
      var exts: seq<string> := [];
      for i := 0 to |items|
        invariant exts == seq(i, j requires 0 <= j < i => Dotted(items[j]))
      {
        exts := exts + [if StartsWith(items[i], ".") then items[i] else "." + items[i]];
      }
      sections := Put(sections, "File", "media_ext", Tuple(exts));
      var ignore := DotGet(sections["File"], "ignore_folder");
      if !(ignore.Some? && ignore.value.Str?) {
        return Fail(NotAString("File", "ignore_folder"));
      }
      sections := Put(sections, "File", "ignore_folder", Tuple(Split(ignore.value.s, ';')));
      if "Crawler" !in sections {
        return Fail(KeyError("Crawler"));
      }
      var required := DotGet(sections["Crawler"], "required_keys");
      if !(required.Some? && required.value.Str?) {
        return Fail(NotAString("Crawler", "required_keys"));
      }
      sections := Put(sections, "Crawler", "required_keys", Tuple(Split(required.value.s, ',')));
      return Pass;
    }

    /** `norm_boolean`: the loop over the five listed pairs. */
    method NormBoolean() returns (outcome: Outcome)
      modifies this
      ensures Stage(sections, outcome) == NormBooleanStep(old(sections))
    {
      for i := 0 to |BOOLEAN_KEYS|
        invariant NormBooleanFrom(old(sections), BOOLEAN_KEYS) == NormBooleanFrom(sections, BOOLEAN_KEYS[i..])
      {
        var (sec, key) := BOOLEAN_KEYS[i];
        var b := GetBoolean(sections, sec, key);
        if b.Err? {
          return Fail(b.error);
        }
        assert BOOLEAN_KEYS[i..][1..] == BOOLEAN_KEYS[i + 1..];
        sections := Put(sections, sec, key, Bool(b.value));
      }
      return Pass;
    }

    /**
     * `validate_proxy`; `warned` tells whether it logs its warning about a
     * malformed address.
     */
    method ValidateProxy() returns (outcome: Outcome, warned: bool)
      modifies this
      ensures Stage(sections, outcome) == ValidateProxyStep(old(sections))
      ensures warned == ProxyWarned(old(sections))
    {
      var proxies: map<string, string> := map[];
      warned := false;
      var useProxy := GetBoolean(sections, "Network", "use_proxy");
      if useProxy.Err? {
        return Fail(useProxy.error), false;
      }
      if useProxy.value {
        var raw := DotGet(sections["Network"], "proxy");
        if !(raw.Some? && raw.value.Str?) {
          return Fail(NotAString("Network", "proxy")), false;
        }
        var proxy := Lower(raw.value.s);
        if IsProxyAddress(proxy) {
          proxies := map["http" := proxy, "https" := proxy];
        } else {
          warned := true;
        }
      }
      sections := Put(sections, "Network", "proxy", Proxies(proxies));
      return Pass, warned;
    }

    /** `convert_naming_rule`, with `os.sep` as `sep`. */
    method ConvertNamingRule(sep: string) returns (outcome: Outcome)
      modifies this
      ensures Stage(sections, outcome) == ConvertNamingRuleStep(old(sections), sep)
    {
      if "NamingRule" !in sections {
        return Fail(KeyError("NamingRule"));
      }
      var rule := sections["NamingRule"];
      var folder := DotGet(rule, "output_folder");
      if !(folder.Some? && folder.value.Str?) {
        return Fail(NotAString("NamingRule", "output_folder"));
      }
      var dir := DotGet(rule, "save_dir");
      if !(dir.Some? && dir.value.Str?) {
        return Fail(NotAString("NamingRule", "save_dir"));
      }
      var pathTemplate := Template(Some(Str(folder.value.s + sep + dir.value.s)));
      var fileTemplate := Template(DotGet(rule, "filename"));
      sections := Put(sections, "NamingRule", "save_dir", pathTemplate);
      sections := Put(sections, "NamingRule", "filename", fileTemplate);
      return Pass;
    }

    /** `check_proxy_free_url`: each site's address is rewritten in place. */
    method CheckProxyFreeUrl() returns (outcome: Outcome)
      requires ProxyFreeAsRead(sections)
      modifies this
      ensures Stage(sections, outcome) == ProxyFreeStep(old(sections))
    {
      if "ProxyFree" !in sections {
        return Fail(KeyError("ProxyFree"));
      }
      var sec := sections["ProxyFree"];
      var todo := sec.Keys;
      while todo != {}
        invariant todo <= sec.Keys
        invariant "ProxyFree" in sections
        invariant sections == old(sections)["ProxyFree" := sections["ProxyFree"]]
        invariant sections["ProxyFree"].Keys == sec.Keys
        invariant forall site | site in sec && site !in todo ::
          sections["ProxyFree"][site] == Str(NormalizeUrl(sec[site].s))
        invariant forall site | site in todo :: sections["ProxyFree"][site] == sec[site]
        decreases todo
      {
        var site :| site in todo;
        var url := Lower(sections["ProxyFree"][site].s);
        if !StartsWith(url, "http") {
          url := "http://" + url;
        }
        var checked := if IsUrl(url) then url else "";
        sections := sections["ProxyFree" := sections["ProxyFree"][site := Str(checked)]];
        todo := todo - {site};
      }
      assert sections["ProxyFree"] == map site | site in sec :: Str(NormalizeUrl(sec[site].s));
      return Pass;
    }

    /** The stage named `n`. */
    method Run(n: StageName, sep: string) returns (outcome: Outcome)
      requires ProxyFreeAsRead(sections)
      modifies this
      ensures Stage(sections, outcome) == RunStage(n, old(sections), sep)
    {
      match n
      case NormInt => outcome := NormInt();
      case NormTuples => outcome := NormTuples();
      case NormBoolean => outcome := NormBoolean();
      case ValidateProxy =>
        var warned;
        outcome, warned := ValidateProxy();
      case ConvertNamingRule => outcome := ConvertNamingRule(sep);
      case CheckProxyFreeUrl => outcome := CheckProxyFreeUrl();
    }

    /** `validate`: the six stages in order, stopping at the first that raises. */
    method Validate(sep: string) returns (outcome: Outcome)
      requires ProxyFreeAsRead(sections)
      modifies this
      ensures Stage(sections, outcome) == ValidateStep(old(sections), sep)
    {
      outcome := Pass;
      for i := 0 to |VALIDATE_ORDER|
        invariant ProxyFreeAsRead(sections)
        invariant ValidateStep(old(sections), sep) == RunStages(VALIDATE_ORDER[i..], sections, sep)
      {
        ghost var before := sections;
        outcome := Run(VALIDATE_ORDER[i], sep);
        assert VALIDATE_ORDER[i..] == [VALIDATE_ORDER[i]] + VALIDATE_ORDER[i + 1..];
        StageThen(VALIDATE_ORDER[i], VALIDATE_ORDER[i + 1..], before, sep, Stage(sections, outcome));
        if outcome.Fail? {
          return;
        }
      }
      outcome := Pass;
    }

    /**
     * `overwrite_cfg` as written: `-x` sets `proxy` twice and leaves
     * `use_proxy` alone (`OverwriteIntendedStep` is the overlay meant).
     */
    method Overwrite(args: CliArgs) returns (outcome: Outcome)
      modifies this
      ensures Stage(sections, outcome) == OverwriteStep(old(sections), args)
    {
      if NonEmpty(args.proxy) {
        if "Network" !in sections {
          return Fail(KeyError("Network"));
        }
        sections := Put(sections, "Network", "proxy", Str("yes"));
        sections := Put(sections, "Network", "proxy", Str(args.proxy.value));
      }
      outcome := OverwritePaths(args);
    }

    /** The `-i` and `-o` part of `overwrite_cfg`. */
    method OverwritePaths(args: CliArgs) returns (outcome: Outcome)
      modifies this
      ensures Stage(sections, outcome) == OverlayPaths(old(sections), args)
    {
      if NonEmpty(args.input) {
        if "File" !in sections {
          return Fail(KeyError("File"));
        }
        sections := Put(sections, "File", "scan_dir", Str(args.input.value));
      }
      if NonEmpty(args.output) {
        if "NamingRule" !in sections {
          return Fail(KeyError("NamingRule"));
        }
        sections := Put(sections, "NamingRule", "output_folder", Str(args.output.value));
      }
      return Pass;
    }
  }

  /** A run after its first stage `n`, ending in `r`: over if `r` raised, else the rest of the run from `r`'s store. */
  lemma StageThen(n: StageName, rest: seq<StageName>, s: Store, sep: string, r: Stage)
    requires ProxyFreeAsRead(s) && r == RunStage(n, s, sep)
    ensures r.outcome.Fail? ==> RunStages([n] + rest, s, sep) == r
    ensures r.outcome.Pass? ==>
      ProxyFreeAsRead(r.store) && RunStages([n] + rest, s, sep) == RunStages(rest, r.store, sep)
  {
    assert ([n] + rest)[1..] == rest;
  }

  /**
   * Loading the configuration: the file as read, then the command-line
   * overlay, then `validate`, stopping at the first exception.
   */
  method Load(read: Store, args: CliArgs, sep: string) returns (cfg: Config, outcome: Outcome)
    requires ProxyFreeAsRead(read)
    ensures fresh(cfg)
    ensures var o := OverwriteStep(read, args);
      if o.outcome.Fail? then Stage(cfg.sections, outcome) == o
      else Stage(cfg.sections, outcome) == ValidateStep(o.store, sep)
  {
    cfg := new Config(read);
    outcome := cfg.Overwrite(args);
    if outcome.Fail? {
      return;
    }
    OverwriteKeepsProxyFree(read, args);
    outcome := cfg.Validate(sep);
  }

  /** The overlay does not touch the `ProxyFree` section. */
  lemma OverwriteKeepsProxyFree(s: Store, args: CliArgs)
    requires ProxyFreeAsRead(s)
    ensures ProxyFreeAsRead(OverwriteStep(s, args).store)
  {
    var t: Store := OverwriteStep(s, args).store;
    if "ProxyFree" in t {
      forall k: string | k in t["ProxyFree"] ensures t["ProxyFree"][k].Str? {
        assert Entry(t, "ProxyFree", k) == Entry(s, "ProxyFree", k);
      }
    }
  }
}

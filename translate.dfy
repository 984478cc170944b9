/**
 * The result shaping of `translate` and the field update of
 * `translate_movie_info`. The HTTP clients of the five engines are not
 * modelled: each is a function from the text it is sent to the reply it
 * gives, passed in as `Clients`.
 */
module Translate {
  import opened Wrappers
  import opened PyStr
  import opened ConfigStore

  // ---------------------------------------------------------------------
  // Engine replies
  // ---------------------------------------------------------------------

  /** An error code as an engine reports it: a number, or text. */
  datatype Code = Num(n: int) | Text(t: string)

  /** `"{}".format(code)`. */
  function Show(c: Code): string
  {
    match c
    case Num(n) => IntToString(n)
    case Text(t) => t
  }

  /**
   * Baidu: the `dst` of each entry of `trans_result`, or `error_code` and
   * `error_msg`, or an exception (its `repr`) that the branch does not catch.
   */
  datatype BaiduReply =
    | BaiduResult(dst: seq<string>)
    | BaiduFailure(code: Code, msg: string)
    | BaiduRaised(repr: string)

  /**
   * Bing: the translated `text` with the sentence lengths of the source and
   * of the translation, or the `error` object's `code` and `message`, or
   * an exception that the branch does not catch.
   */
  datatype BingReply =
    | BingResult(srcSentLen: seq<int>, transSentLen: seq<int>, text: string)
    | BingFailure(code: Code, message: string)
    | BingRaised(repr: string)

  /** One entry of Google's `sentences`; a field may be missing. */
  datatype GoogleSentence = GoogleSentence(orig: Option<string>, trans: Option<string>)

  /** Google: `sentences`, or `error_code` and `error_msg`, or an exception with its `repr`. */
  datatype GoogleReply =
    | GoogleResult(sentences: seq<GoogleSentence>)
    | GoogleFailure(code: Code, msg: string)
    | GoogleRaised(repr: string)

  /** Claude and Groq: the translated text, or `error_code` and `error_msg`, or an exception. */
  datatype LlmReply = LlmText(text: string) | LlmFailure(code: Code, msg: string) | LlmRaised(repr: string)

  /** The engines' clients, each as a function of the text it is sent. */
  datatype Clients = Clients(
    baidu: string -> BaiduReply,
    bing: string -> BingReply,
    google: string -> GoogleReply,
    claude: string -> LlmReply,
    groq: string -> LlmReply)

  // ---------------------------------------------------------------------
  // Results
  // ---------------------------------------------------------------------

  /** The source and translated sentences, when the engine tells them apart. */
  datatype Breaks = Breaks(orig: seq<string>, trans: seq<string>)

  /**
   * What `translate` returns: `{'trans': ...}` (with `orig_break` and
   * `trans_break` when there are breaks), `{'error': ...}`, or `{}`; or
   * the client's exception, which escapes `translate`.
   */
  datatype TranslateResult =
    | Translated(trans: string, breaks: Option<Breaks>)
    | Failed(error: string)
    | NoResult
    | Raised(repr: string)

  /** `"{}: {}: {}".format(engine, code, msg)`. */
  function ErrorText(engine: string, code: Code, msg: string): string
  {
    engine + ": " + Show(code) + ": " + msg
  }

  /** `"{}: {}: Exception: {}".format(engine, -2, repr(e))`. */
  function ExceptionText(engine: string, repr: string): string
  {
    ErrorText(engine, Num(-2), "Exception: " + repr)
  }

  /** The error text starts with the engine and `: `, and ends with `: ` and the message. */
  lemma ErrorTextShape(engine: string, code: Code, msg: string)
    ensures StartsWith(ErrorText(engine, code, msg), engine + ": ")
    ensures var e := ErrorText(engine, code, msg);
      |e| >= |msg| + 2 && e[|e| - |msg| - 2..] == ": " + msg
    ensures ErrorText(engine, code, msg) != ""
  {
    var e := ErrorText(engine, code, msg);
    assert e == (engine + ": ") + (Show(code) + ": " + msg);
    assert e == (engine + ": " + Show(code)) + (": " + msg);
  }

  /** The exception text spelled out: the engine, then `: -2: Exception: `, then the `repr`. */
  lemma ExceptionTextIs(engine: string, repr: string)
    ensures ExceptionText(engine, repr) == engine + ": -2: Exception: " + repr
  {
    assert Show(Num(-2)) == "-2" by {
      assert NatToString(2) == "2";
    }
  }

  // ---------------------------------------------------------------------
  // Bing
  // ---------------------------------------------------------------------

  /** The dynamic-dictionary markup that keeps an actress's name untranslated. */
  function Markup(name: string): string
  {
    "<mstrans:dictionary translation=\"" + name + "\">" + name + "</mstrans:dictionary>"
  }

  /** The text after protecting each name of `names` in turn. */
  function Protect(text: string, names: seq<string>): string
    decreases |names|
  {
    if names == [] then text
    else
      var last := names[|names| - 1];
      Replace(Protect(text, names[..|names| - 1]), last, Markup(last))
  }

  /** Names that do not occur in the text leave it as it is. */
  lemma {:induction false} ProtectAbsent(text: string, names: seq<string>)
    requires forall i | 0 <= i < |names| :: names[i] != "" && !Occurs(text, names[i])
    ensures Protect(text, names) == text
    decreases |names|
  {
    if names != [] {
      ProtectAbsent(text, names[..|names| - 1]);
      ReplaceAbsent(text, names[|names| - 1], Markup(names[|names| - 1]));
    }
  }

  /** The pieces the Bing loop cuts: `text[:n]` for each `n` of `lens`, each from what the previous left. */
  function Slices(text: string, lens: seq<int>): (ps: seq<string>)
    ensures |ps| == |lens|
    decreases |lens|
  {
    if lens == [] then []
    else [PyPrefix(text, lens[0])] + Slices(PySuffix(text, lens[0]), lens[1..])
  }

  /** What is left after the pieces are cut. */
  function Remaining(text: string, lens: seq<int>): string
    decreases |lens|
  {
    if lens == [] then text else Remaining(PySuffix(text, lens[0]), lens[1..])
  }

  /** The pieces followed by what is left give back the text, whatever the lengths. */
  lemma {:induction false} SlicesCover(text: string, lens: seq<int>)
    ensures Concat(Slices(text, lens)) + Remaining(text, lens) == text
    decreases |lens|
  {
    if lens != [] {
      var rest := PySuffix(text, lens[0]);
      SlicesCover(rest, lens[1..]);
      PrefixSuffix(text, lens[0]);
    }
  }

  function Sum(lens: seq<int>): int
  {
    if lens == [] then 0 else lens[0] + Sum(lens[1..])
  }

  lemma {:induction false} SumNonNegative(lens: seq<int>)
    requires forall i | 0 <= i < |lens| :: lens[i] >= 0
    ensures Sum(lens) >= 0
  {
    if lens != [] {
      SumNonNegative(lens[1..]);
    }
  }

  /**
   * Lengths that are not negative and do not run past the text cut pieces
   * of exactly those lengths; lengths that add up to the text's length
   * leave nothing over.
   */
  lemma {:induction false} SlicesExact(text: string, lens: seq<int>)
    requires forall i | 0 <= i < |lens| :: lens[i] >= 0
    requires Sum(lens) <= |text|
    ensures forall i | 0 <= i < |lens| :: |Slices(text, lens)[i]| == lens[i]
    ensures Sum(lens) == |text| ==> Remaining(text, lens) == ""
    decreases |lens|
  {
    if lens != [] {
      var rest := PySuffix(text, lens[0]);
      SumNonNegative(lens[1..]);
      assert |rest| == |text| - lens[0];
      SlicesExact(rest, lens[1..]);
      forall i | 0 <= i < |lens| ensures |Slices(text, lens)[i]| == lens[i] {
        if i > 0 {
          assert Slices(text, lens)[i] == Slices(rest, lens[1..])[i - 1];
        }
      }
    }
  }

  /** The translated sentences: each piece of the translation without its trailing spaces. */
  function TransBreaks(text: string, lens: seq<int>): seq<string>
    decreases |lens|
  {
    if lens == [] then []
    else [RStrip(PyPrefix(text, lens[0]), ' ')] + TransBreaks(PySuffix(text, lens[0]), lens[1..])
  }

  /** The `i`-th translated sentence is the `i`-th piece of the translation, right-stripped of spaces. */
  lemma {:induction false} TransBreaksPieces(text: string, lens: seq<int>)
    ensures |TransBreaks(text, lens)| == |lens|
    ensures forall i | 0 <= i < |lens| :: TransBreaks(text, lens)[i] == RStrip(Slices(text, lens)[i], ' ')
    decreases |lens|
  {
    if lens != [] {
      TransBreaksPieces(PySuffix(text, lens[0]), lens[1..]);
      forall i | 1 <= i < |lens|
        ensures TransBreaks(text, lens)[i] == TransBreaks(PySuffix(text, lens[0]), lens[1..])[i - 1]
        ensures Slices(text, lens)[i] == Slices(PySuffix(text, lens[0]), lens[1..])[i - 1]
      {
      }
    }
  }

  /**
   * There is one translated sentence per length; each is its piece of the
   * translation with the trailing spaces, and only those, removed.
   */
  lemma TransBreaksShape(text: string, lens: seq<int>)
    ensures |TransBreaks(text, lens)| == |lens|
    ensures forall i | 0 <= i < |lens| ::
      var t := TransBreaks(text, lens)[i];
      var p := Slices(text, lens)[i];
      && (t == [] || t[|t| - 1] != ' ')
      && |t| <= |p| && t == p[..|t|]
      && forall j | |t| <= j < |p| :: p[j] == ' '
  {
    TransBreaksPieces(text, lens);
  }

  /** The Bing branch once the reply is in. */
  function BingShape(engine: string, protected: string, reply: BingReply): TranslateResult
  {
    match reply
    case BingResult(src, lens, text) =>
      var transBreak := TransBreaks(text, lens);
      Translated(Concat(transBreak), Some(Breaks(Slices(protected, src), transBreak)))
    case BingFailure(code, message) => Failed(ErrorText(engine, code, message))
    case BingRaised(repr) => Raised(repr)
  }

  // ---------------------------------------------------------------------
  // Google, Baidu, Claude and Groq
  // ---------------------------------------------------------------------

  /**
   * The Google branch once the sentences are in: a sentence without `orig`
   * or `trans` raises `KeyError`, which the branch reports as an exception.
   */
  function GoogleShape(engine: string, ss: seq<GoogleSentence>): TranslateResult
  {
    if exists i | 0 <= i < |ss| :: ss[i].orig.None? then
      Failed(ExceptionText(engine, "KeyError('orig')"))
    else if exists i | 0 <= i < |ss| :: ss[i].trans.None? then
      Failed(ExceptionText(engine, "KeyError('trans')"))
    else
      var origBreak := seq(|ss|, i requires 0 <= i < |ss| => ss[i].orig.value);
      var transBreak := seq(|ss|, i requires 0 <= i < |ss| => ss[i].trans.value);
      Translated(Concat(transBreak), Some(Breaks(origBreak, transBreak)))
  }

  /** `repr` of the `TypeError` raised by indexing a `str` with a `str` (Python 3.11 on). */
  const STR_INDEX_ERROR := "TypeError(\"string indices must be integers, not 'str'\")"

  /**
   * The Claude and Groq branches as written: `'error_code' not in result`
   * is a substring test when the reply is text, and indexing that text
   * with `'error_code'` raises.
   */
  function LlmShape(engine: string, reply: LlmReply): TranslateResult
  {
    match reply
    case LlmText(t) =>
      if Occurs(t, "error_code") then Failed(ExceptionText(engine, STR_INDEX_ERROR))
      else Translated(t, None)
    case LlmFailure(code, msg) => Failed(ErrorText(engine, code, msg))
    case LlmRaised(repr) => Failed(ExceptionText(engine, repr))
  }

  /** The evidently intended branch: any text reply is the translation. */
  function LlmShapeIntended(engine: string, reply: LlmReply): TranslateResult
  {
    match reply
    case LlmText(t) => Translated(t, None)
    case LlmFailure(code, msg) => Failed(ErrorText(engine, code, msg))
    case LlmRaised(repr) => Failed(ExceptionText(engine, repr))
  }

  /** The engines `translate` knows. */
  const ENGINES: set<string> := {"baidu", "bing", "google", "claude", "groq"}

  /** The Baidu branch once the reply is in. */
  function BaiduShape(engine: string, reply: BaiduReply): TranslateResult
  {
    match reply
    case BaiduResult(dst) => Translated(Join(dst, "\n"), None)
    case BaiduFailure(code, msg) => Failed(ErrorText(engine, code, msg))
    case BaiduRaised(repr) => Raised(repr)
  }

  /** The Google branch, including the exception handler. */
  function GoogleReplyShape(engine: string, reply: GoogleReply): TranslateResult
  {
    match reply
    case GoogleResult(ss) => GoogleShape(engine, ss)
    case GoogleFailure(code, msg) => Failed(ErrorText(engine, code, msg))
    case GoogleRaised(repr) => Failed(ExceptionText(engine, repr))
  }

  /** `translate(texts, engine, actress)`, with the engines' replies given by `clients`. */
  function Translation(texts: string, engine: string, actress: seq<string>, clients: Clients): TranslateResult
  {
    if engine == "baidu" then BaiduShape(engine, clients.baidu(texts))
    else if engine == "bing" then
      var protected := Protect(texts, actress);
      BingShape(engine, protected, clients.bing(protected))
    else if engine == "google" then GoogleReplyShape(engine, clients.google(texts))
    else if engine == "claude" then LlmShape(engine, clients.claude(texts))
    else if engine == "groq" then LlmShape(engine, clients.groq(texts))
    else NoResult
  }

  // ---------------------------------------------------------------------
  // translate, in place
  // ---------------------------------------------------------------------

  /** The loop protecting each actress's name. */
  method ProtectNames(texts: string, actress: seq<string>) returns (protected: string)
    ensures protected == Protect(texts, actress)
  {
    protected := texts;
    for i := 0 to |actress|
      invariant protected == Protect(texts, actress[..i])
    {
      assert actress[..i + 1][..i] == actress[..i];
      protected := Replace(protected, actress[i], Markup(actress[i]));
    }
    assert actress[..|actress|] == actress;
  }

  /**
   * The loop cutting the source into sentences: at every step the pieces
   * so far followed by what remains are the text.
   */
  method CutSentences(text: string, lens: seq<int>) returns (pieces: seq<string>, remaining: string)
    ensures pieces == Slices(text, lens) && remaining == Remaining(text, lens)
    ensures Concat(pieces) + remaining == text
  {
    pieces := [];
    remaining := text;
    for i := 0 to |lens|
      invariant Concat(pieces) + remaining == text
      invariant pieces + Slices(remaining, lens[i..]) == Slices(text, lens)
      invariant Remaining(remaining, lens[i..]) == Remaining(text, lens)
    {
      var n := lens[i];
      SlicesStep(remaining, lens, i);
      ConcatAppend(pieces, PyPrefix(remaining, n));
      PrefixSuffix(remaining, n);
      pieces := pieces + [PyPrefix(remaining, n)];
      remaining := PySuffix(remaining, n);
    }
  }

  /** One more cut, starting at the `i`-th length. */
  lemma SlicesStep(text: string, lens: seq<int>, i: int)
    requires 0 <= i < |lens|
    ensures Slices(text, lens[i..]) == [PyPrefix(text, lens[i])] + Slices(PySuffix(text, lens[i]), lens[i + 1..])
    ensures Remaining(text, lens[i..]) == Remaining(PySuffix(text, lens[i]), lens[i + 1..])
  {
    assert lens[i..][1..] == lens[i + 1..];
  }

  /** The loop cutting the translation into sentences without their trailing spaces. */
  method CutTranslation(text: string, lens: seq<int>) returns (breaks: seq<string>)
    ensures breaks == TransBreaks(text, lens)
  {
    breaks := [];
    var remaining := text;
    for i := 0 to |lens|
      invariant breaks + TransBreaks(remaining, lens[i..]) == TransBreaks(text, lens)
    {
      var n := lens[i];
      assert lens[i..][1..] == lens[i + 1..];
      breaks := breaks + [RStrip(PyPrefix(remaining, n), ' ')];
      remaining := PySuffix(remaining, n);
    }
  }

  /** `translate`. */
  method Translate(texts: string, engine: string, actress: seq<string>, clients: Clients)
    returns (r: TranslateResult)
    ensures r == Translation(texts, engine, actress, clients)
  {
    if engine != "bing" {
      return Translation(texts, engine, actress, clients);
    }
    var protected := ProtectNames(texts, actress);
    var reply := clients.bing(protected);
    match reply
    case BingFailure(code, message) =>
      r := Failed(ErrorText(engine, code, message));
    case BingRaised(repr) =>
      r := Raised(repr);
    case BingResult(src, lens, text) =>
      var origBreak, _ := CutSentences(protected, src);
      var transBreak := CutTranslation(text, lens);
      r := Translated(Concat(transBreak), Some(Breaks(origBreak, transBreak)));
  }

  // ---------------------------------------------------------------------
  // What translate promises
  // ---------------------------------------------------------------------

  /**
   * Bing: one source sentence per source length, which with what is left
   * make up the protected text; one translated sentence per translated
   * length, none ending in a space; the translation is their concatenation.
   */
  lemma BingResultShape(texts: string, actress: seq<string>, clients: Clients)
    requires clients.bing(Protect(texts, actress)).BingResult?
    ensures var reply := clients.bing(Protect(texts, actress));
      var r := Translation(texts, "bing", actress, clients);
      && r.Translated? && r.breaks.Some?
      && |r.breaks.value.orig| == |reply.srcSentLen|
      && Concat(r.breaks.value.orig) + Remaining(Protect(texts, actress), reply.srcSentLen) == Protect(texts, actress)
      && |r.breaks.value.trans| == |reply.transSentLen|
      && (forall i | 0 <= i < |r.breaks.value.trans| ::
            var t := r.breaks.value.trans[i]; t == [] || t[|t| - 1] != ' ')
      && r.trans == Concat(r.breaks.value.trans)
  {
    var reply := clients.bing(Protect(texts, actress));
    SlicesCover(Protect(texts, actress), reply.srcSentLen);
    TransBreaksShape(reply.text, reply.transSentLen);
  }

  /**
   * Google: when every sentence has both fields, one source and one
   * translated sentence per sentence, taken from it, and the translation is
   * the concatenation; a missing field is reported as the `KeyError`.
   */
  lemma GoogleResultShape(texts: string, actress: seq<string>, clients: Clients)
    requires clients.google(texts).GoogleResult?
    ensures var ss := clients.google(texts).sentences;
      var r := Translation(texts, "google", actress, clients);
      && ((forall i | 0 <= i < |ss| :: ss[i].orig.Some? && ss[i].trans.Some?) ==>
            && r.Translated? && r.breaks.Some?
            && |r.breaks.value.orig| == |ss| == |r.breaks.value.trans|
            && (forall i | 0 <= i < |ss| ::
                  r.breaks.value.orig[i] == ss[i].orig.value && r.breaks.value.trans[i] == ss[i].trans.value)
            && r.trans == Concat(r.breaks.value.trans))
      && ((exists i | 0 <= i < |ss| :: ss[i].orig.None?) ==>
            r == Failed(ExceptionText("google", "KeyError('orig')")))
      && ((forall i | 0 <= i < |ss| :: ss[i].orig.Some?) && (exists i | 0 <= i < |ss| :: ss[i].trans.None?) ==>
            r == Failed(ExceptionText("google", "KeyError('trans')")))
  {
  }

  /**
   * Baidu: the translation is the paragraphs joined by newlines, and
   * splitting it at the newlines gives back paragraphs that hold none.
   */
  lemma BaiduResultShape(texts: string, actress: seq<string>, clients: Clients)
    requires clients.baidu(texts).BaiduResult?
    ensures var dst := clients.baidu(texts).dst;
      var r := Translation(texts, "baidu", actress, clients);
      && r == Translated(Join(dst, "\n"), None)
      && (|dst| >= 1 && (forall i | 0 <= i < |dst| :: '\n' !in dst[i]) ==> Split(r.trans, '\n') == dst)
  {
    var dst := clients.baidu(texts).dst;
    if |dst| >= 1 && (forall i | 0 <= i < |dst| :: '\n' !in dst[i]) {
      SplitJoin(dst, '\n');
    }
  }

  /** The reply of an engine reports an error (as opposed to a translation). */
  predicate ReportsError(engine: string, texts: string, actress: seq<string>, clients: Clients)
  {
    if engine == "baidu" then clients.baidu(texts).BaiduFailure?
    else if engine == "bing" then clients.bing(Protect(texts, actress)).BingFailure?
    else if engine == "google" then !clients.google(texts).GoogleResult?
    else if engine == "claude" then !clients.claude(texts).LlmText?
    else engine == "groq" && !clients.groq(texts).LlmText?
  }

  /** `{}` comes back exactly for an engine not in the list. */
  lemma UnknownEngine(texts: string, engine: string, actress: seq<string>, clients: Clients)
    ensures Translation(texts, engine, actress, clients) == NoResult <==> engine !in ENGINES
  {
  }

  /** An engine that reports an error gives `{'error': ...}`, and one that translates does not. */
  lemma ErrorReported(texts: string, engine: string, actress: seq<string>, clients: Clients)
    requires engine in ENGINES
    ensures ReportsError(engine, texts, actress, clients) ==> Translation(texts, engine, actress, clients).Failed?
    ensures Translation(texts, engine, actress, clients).Translated? ==> !ReportsError(engine, texts, actress, clients)
  {
  }

  /**
   * An exception from the Baidu or Bing client escapes `translate`
   * unchanged; the other engines' exceptions are caught and reported.
   */
  lemma ClientExceptionEscapes(texts: string, engine: string, actress: seq<string>, clients: Clients)
    ensures Translation(texts, engine, actress, clients).Raised? <==>
      || (engine == "baidu" && clients.baidu(texts).BaiduRaised?)
      || (engine == "bing" && clients.bing(Protect(texts, actress)).BingRaised?)
    ensures Translation(texts, engine, actress, clients).Raised? ==>
      Translation(texts, engine, actress, clients).repr ==
        (if engine == "baidu" then clients.baidu(texts).repr else clients.bing(Protect(texts, actress)).repr)
  {
  }

  /** The error texts of the engines that report a code: `engine: code: message`. */
  lemma ErrorTexts(texts: string, actress: seq<string>, clients: Clients)
    ensures clients.baidu(texts).BaiduFailure? ==>
      var reply := clients.baidu(texts);
      Translation(texts, "baidu", actress, clients) == Failed("baidu" + ": " + Show(reply.code) + ": " + reply.msg)
    ensures clients.bing(Protect(texts, actress)).BingFailure? ==>
      var reply := clients.bing(Protect(texts, actress));
      Translation(texts, "bing", actress, clients) == Failed("bing" + ": " + Show(reply.code) + ": " + reply.message)
    ensures clients.google(texts).GoogleFailure? ==>
      var reply := clients.google(texts);
      Translation(texts, "google", actress, clients) == Failed("google" + ": " + Show(reply.code) + ": " + reply.msg)
  {
  }

  /** An exception in the Google branch is reported with the code -2 and its `repr`. */
  lemma GoogleExceptionText(texts: string, actress: seq<string>, clients: Clients)
    requires clients.google(texts).GoogleRaised?
    ensures Translation(texts, "google", actress, clients) ==
      Failed("google" + ": -2: Exception: " + clients.google(texts).repr)
  {
    ExceptionTextIs("google", clients.google(texts).repr);
  }

  /**
   * As written, a Claude or Groq translation that happens to contain
   * `error_code` is reported as an exception instead of returned.
   */
  lemma LlmTextMistaken(engine: string, t: string)
    requires Occurs(t, "error_code")
    ensures LlmShape(engine, LlmText(t)).Failed?
    ensures LlmShape(engine, LlmText(t)) != Translated(t, None)
  {
  }

  /** The intended branch returns every text reply, and agrees with the written one on the rest. */
  lemma LlmShapeIntendedKeepsText(engine: string, reply: LlmReply)
    ensures reply.LlmText? ==> LlmShapeIntended(engine, reply) == Translated(reply.text, None)
    ensures !(reply.LlmText? && Occurs(reply.text, "error_code")) ==>
      LlmShapeIntended(engine, reply) == LlmShape(engine, reply)
  {
  }

  /** A concrete text that triggers it: the translation `"error_code"`. */
  lemma LlmTextMistakenExample(engine: string)
    ensures LlmShape(engine, LlmText("error_code")).Failed?
  {
    assert OccursAt("error_code", "error_code", 0);
  }

  // ---------------------------------------------------------------------
  // translate_movie_info
  // ---------------------------------------------------------------------

  /**
   * The fields of a `MovieInfo` that `translate_movie_info` reads or
   * writes; `None` also stands for an attribute that was never set.
   */
  datatype InfoFields = InfoFields(
    title: Option<string>,
    oriTitle: Option<string>,
    plot: Option<string>,
    oriPlot: Option<string>,
    oriTitleBreak: Option<seq<string>>,
    titleBreak: Option<seq<string>>,
    actress: seq<string>)

  /** A movie's metadata, updated in place by the translation. */
  class MovieInfo {
    var title: Option<string>
    var oriTitle: Option<string>
    var plot: Option<string>
    var oriPlot: Option<string>
    var oriTitleBreak: Option<seq<string>>
    var titleBreak: Option<seq<string>>
    var actress: seq<string>

    constructor (f: InfoFields)
      ensures Fields() == f
    {
      title, oriTitle, plot, oriPlot := f.title, f.oriTitle, f.plot, f.oriPlot;
      oriTitleBreak, titleBreak, actress := f.oriTitleBreak, f.titleBreak, f.actress;
    }

    function Fields(): InfoFields
      reads this
    {
      InfoFields(title, oriTitle, plot, oriPlot, oriTitleBreak, titleBreak, actress)
    }
  }

  /** The fields afterwards, and whether the call returned `True` or `False` or raised. */
  datatype InfoRun = InfoRun(info: InfoFields, outcome: Result<bool, Error>)

  /**
   * The engine name `cfg.Translate.engine` hands to `translate`. A missing
   * entry (`None`) equals no engine name, and neither does `""`.
   */
  function EngineName(v: Option<Value>): string
  {
    if v.Some? && v.value.Str? then v.value.s else ""
  }

  /**
   * The title step: go on with the fields (`true`), return `False`
   * (`false`), or raise. `enabled` decides whether the setting switches
   * translation on.
   */
  function TitleStep(i: InfoFields, s: Store, clients: Clients, enabled: Option<Value> -> bool)
    : Result<(InfoFields, bool), Error>
  {
    if !NonEmpty(i.title) then Ok((i, true))
    else if "Translate" !in s then Err(KeyError("Translate"))
    else
      var sec := s["Translate"];
      if !enabled(DotGet(sec, "translate_title")) || i.oriTitle.Some? then Ok((i, true))
      else
        match Translation(i.title.value, EngineName(DotGet(sec, "engine")), i.actress, clients)
        case Translated(t, breaks) =>
          var j := i.(oriTitle := i.title, title := Some(t));
          if breaks.Some? then
            Ok((j.(oriTitleBreak := Some(breaks.value.orig), titleBreak := Some(breaks.value.trans)), true))
          else Ok((j, true))
        case Failed(_) => Ok((i, false))
        case NoResult => Err(KeyError("error"))
        case Raised(repr) => Err(Uncaught(repr))
  }

  /** The plot step, in the same terms. */
  function PlotStep(i: InfoFields, s: Store, clients: Clients, enabled: Option<Value> -> bool)
    : Result<(InfoFields, bool), Error>
  {
    if !NonEmpty(i.plot) then Ok((i, true))
    else if "Translate" !in s then Err(KeyError("Translate"))
    else
      var sec := s["Translate"];
      if !enabled(DotGet(sec, "translate_plot")) then Ok((i, true))
      else
        match Translation(i.plot.value, EngineName(DotGet(sec, "engine")), i.actress, clients)
        case Translated(t, _) => Ok((i.(oriPlot := i.plot, plot := Some(t)), true))
        case Failed(_) => Ok((i, false))
        case NoResult => Err(KeyError("error"))
        case Raised(repr) => Err(Uncaught(repr))
  }

  /** `translate_movie_info`, with `cfg` as `s` and the switch test `enabled`. */
  function TranslateInfoWith(i: InfoFields, s: Store, clients: Clients, enabled: Option<Value> -> bool): InfoRun
  {
    match TitleStep(i, s, clients, enabled)
    case Err(e) => InfoRun(i, Err(e))
    case Ok((j, false)) => InfoRun(j, Ok(false))
    case Ok((j, true)) =>
      match PlotStep(j, s, clients, enabled)
      case Err(e) => InfoRun(j, Err(e))
      case Ok((k, goOn)) => InfoRun(k, Ok(goOn))
  }

  /** `translate_movie_info` as written: a setting switches translation on when it is truthy. */
  function TranslateInfo(i: InfoFields, s: Store, clients: Clients): InfoRun
  {
    TranslateInfoWith(i, s, clients, Truthy)
  }

  /** `translate_movie_info`, rewriting the movie's fields in place. */
  method TranslateMovieInfo(info: MovieInfo, s: Store, clients: Clients) returns (outcome: Result<bool, Error>)
    modifies info
    ensures InfoRun(info.Fields(), outcome) == TranslateInfo(old(info.Fields()), s, clients)
  {
    if NonEmpty(info.title) {
      if "Translate" !in s {
        return Err(KeyError("Translate"));
      }
      var sec := s["Translate"];
      if Truthy(DotGet(sec, "translate_title")) && info.oriTitle.None? {
        var result := Translate(info.title.value, EngineName(DotGet(sec, "engine")), info.actress, clients);
        match result
        case Translated(t, breaks) =>
          info.oriTitle := info.title;
          info.title := Some(t);
          if breaks.Some? {
            info.oriTitleBreak := Some(breaks.value.orig);
            info.titleBreak := Some(breaks.value.trans);
          }
        case Failed(_) =>
          return Ok(false);
        case NoResult =>
          return Err(KeyError("error"));
        case Raised(repr) =>
          return Err(Uncaught(repr));
      }
    }
    if NonEmpty(info.plot) {
      if "Translate" !in s {
        return Err(KeyError("Translate"));
      }
      var sec := s["Translate"];
      if Truthy(DotGet(sec, "translate_plot")) {
        var result := Translate(info.plot.value, EngineName(DotGet(sec, "engine")), info.actress, clients);
        match result
        case Translated(t, _) =>
          info.oriPlot := info.plot;
          info.plot := Some(t);
        case Failed(_) =>
          return Ok(false);
        case NoResult =>
          return Err(KeyError("error"));
        case Raised(repr) =>
          return Err(Uncaught(repr));
      }
    }
    return Ok(true);
  }

  // ---------------------------------------------------------------------
  // What translate_movie_info promises
  // ---------------------------------------------------------------------

  /** The title is translated only when it is not empty, the setting is on and there is no original title yet. */
  predicate TitleWanted(i: InfoFields, s: Store, enabled: Option<Value> -> bool)
  {
    NonEmpty(i.title) && "Translate" in s && enabled(DotGet(s["Translate"], "translate_title")) && i.oriTitle.None?
  }

  /** The translation the title step asks for. */
  function TitleTranslation(i: InfoFields, s: Store, clients: Clients): TranslateResult
    requires NonEmpty(i.title) && "Translate" in s
  {
    Translation(i.title.value, EngineName(DotGet(s["Translate"], "engine")), i.actress, clients)
  }

  /**
   * The title and the original title change only when the title is
   * wanted. Then a translation moves the title to the original title and
   * puts the translation in its place, whatever the plot step does later;
   * an error returns `False` with no field changed.
   */
  lemma TitleResult(i: InfoFields, s: Store, clients: Clients, enabled: Option<Value> -> bool)
    ensures var r := TranslateInfoWith(i, s, clients, enabled);
      (r.info.title != i.title || r.info.oriTitle != i.oriTitle) ==> TitleWanted(i, s, enabled)
    ensures TitleWanted(i, s, enabled) && TitleTranslation(i, s, clients).Translated? ==>
      var r := TranslateInfoWith(i, s, clients, enabled);
      r.info.oriTitle == i.title && r.info.title == Some(TitleTranslation(i, s, clients).trans)
    ensures TitleWanted(i, s, enabled) && TitleTranslation(i, s, clients).Failed? ==>
      TranslateInfoWith(i, s, clients, enabled) == InfoRun(i, Ok(false))
    ensures TranslateInfoWith(i, s, clients, enabled).info.actress == i.actress
  {
  }

  /** The plot is translated only when the title step went on, the plot is not empty and the setting is on. */
  predicate PlotWanted(i: InfoFields, s: Store, clients: Clients, enabled: Option<Value> -> bool)
  {
    && TitleStep(i, s, clients, enabled).Ok? && TitleStep(i, s, clients, enabled).value.1
    && NonEmpty(i.plot) && "Translate" in s && enabled(DotGet(s["Translate"], "translate_plot"))
  }

  /** Translating the title leaves the plot and its original as they were. */
  lemma TitleStepKeepsPlot(i: InfoFields, s: Store, clients: Clients, enabled: Option<Value> -> bool)
    requires TitleStep(i, s, clients, enabled).Ok?
    ensures var j := TitleStep(i, s, clients, enabled).value.0;
      j.plot == i.plot && j.oriPlot == i.oriPlot && j.actress == i.actress
  {
  }

  /**
   * When the plot is wanted, a translation moves the plot to `ori_plot`
   * and puts the translation in its place, and the call returns `True`;
   * an error returns `False` and leaves the plot as it was.
   */
  lemma PlotResult(i: InfoFields, s: Store, clients: Clients, enabled: Option<Value> -> bool)
    ensures var r := TranslateInfoWith(i, s, clients, enabled);
      (r.info.plot != i.plot || r.info.oriPlot != i.oriPlot) ==> PlotWanted(i, s, clients, enabled)
    ensures PlotWanted(i, s, clients, enabled) ==>
      var r := TranslateInfoWith(i, s, clients, enabled);
      var p := Translation(i.plot.value, EngineName(DotGet(s["Translate"], "engine")), i.actress, clients);
      && (p.Translated? ==> r.info.oriPlot == i.plot && r.info.plot == Some(p.trans) && r.outcome == Ok(true))
      && (p.Failed? ==> r.info.plot == i.plot && r.info.oriPlot == i.oriPlot && r.outcome == Ok(false))
  {
    if TitleStep(i, s, clients, enabled).Ok? {
      TitleStepKeepsPlot(i, s, clients, enabled);
    }
  }

  /**
   * The call returns `True` unless a translation reported an error. It
   * raises only for a missing `Translate` section, for an engine
   * `translate` does not know (its `{}` has no `error`), or when the Baidu
   * or Bing client raises.
   */
  lemma InfoOutcome(i: InfoFields, s: Store, clients: Clients, enabled: Option<Value> -> bool)
    ensures var r := TranslateInfoWith(i, s, clients, enabled);
      && (r.outcome == Ok(false) ==>
            "Translate" in s && exists text | text in {i.title, i.plot} && NonEmpty(text) ::
              Translation(text.value, EngineName(DotGet(s["Translate"], "engine")), i.actress, clients).Failed?)
      && (r.outcome.Err? ==>
            || ("Translate" !in s && r.outcome == Err(KeyError("Translate")))
            || ("Translate" in s && r.outcome == Err(KeyError("error")) &&
                EngineName(DotGet(s["Translate"], "engine")) !in ENGINES)
            || ("Translate" in s && r.outcome.error.Uncaught? &&
                (EngineName(DotGet(s["Translate"], "engine")) == "baidu" ||
                 EngineName(DotGet(s["Translate"], "engine")) == "bing")))
  {
    var r := TranslateInfoWith(i, s, clients, enabled);
    if "Translate" in s {
      var engine := EngineName(DotGet(s["Translate"], "engine"));
      forall text | NonEmpty(text)
        ensures Translation(text.value, engine, i.actress, clients) == NoResult ==> engine !in ENGINES
        ensures Translation(text.value, engine, i.actress, clients).Raised? ==> engine == "baidu" || engine == "bing"
      {
        UnknownEngine(text.value, engine, i.actress, clients);
        ClientExceptionEscapes(text.value, engine, i.actress, clients);
      }
      if TitleStep(i, s, clients, enabled).Ok? {
        TitleStepKeepsPlot(i, s, clients, enabled);
      }
    }
  }

  /**
   * The settings are read as raw text and tested for truthiness, so
   * `translate_title = no` still has the title translated.
   */
  lemma TitleSettingNo(i: InfoFields, s: Store, clients: Clients)
    requires "Translate" in s && DotGet(s["Translate"], "translate_title") == Some(Str("no"))
    requires NonEmpty(i.title) && i.oriTitle.None?
    requires TitleTranslation(i, s, clients).Translated?
    ensures TranslateInfo(i, s, clients).info.title == Some(TitleTranslation(i, s, clients).trans)
    ensures TranslateInfo(i, s, clients).info.oriTitle == i.title
  {
    TitleResult(i, s, clients, Truthy);
  }

  /**
   * As written, a Claude or Groq title translation that contains
   * `error_code` makes the call return `False` and leaves the title as it
   * was (see `LlmShape`).
   */
  lemma LlmErrorCodeKeepsTitle(i: InfoFields, s: Store, clients: Clients, t: string)
    requires TitleWanted(i, s, Truthy)
    requires var engine := EngineName(DotGet(s["Translate"], "engine"));
      || (engine == "claude" && clients.claude(i.title.value) == LlmText(t))
      || (engine == "groq" && clients.groq(i.title.value) == LlmText(t))
    requires Occurs(t, "error_code")
    ensures TranslateInfo(i, s, clients) == InfoRun(i, Ok(false))
  {
    LlmTextMistaken(EngineName(DotGet(s["Translate"], "engine")), t);
    TitleResult(i, s, clients, Truthy);
  }
}

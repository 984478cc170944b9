# JavSP configuration pipeline and translation shaping, in Dafny

JavSP gathers metadata for video files from several web sites. This
project models two parts of it.

- **The configuration core.** JavSP reads an INI file into `Config`, a
  `ConfigParser` whose sections are `DotDict`s. It then overlays the
  command-line options `-x`, `-i` and `-o`. After that, `validate` runs six
  stages in order:
  - `norm_int` turns `Network.retry` and `Network.timeout` into integers;
  - `norm_tuples` turns `File.media_ext`, `File.ignore_folder` and
    `Crawler.required_keys` into tuples;
  - `norm_boolean` turns five flags into booleans;
  - `validate_proxy` turns `Network.proxy` into a proxies table;
  - `convert_naming_rule` turns `NamingRule.save_dir` and
    `NamingRule.filename` into templates;
  - `check_proxy_free_url` normalises each address of `ProxyFree`, or
    blanks it when `is_url` rejects it.

  The first failing stage stops the run. Any writes it made before failing
  stay in place.
- **Translation.** `translate` sends text to one of five engines: Baidu,
  Bing, Google, Claude or Groq. It shapes each engine's reply into either
  `{'trans', 'orig_break', 'trans_break'}` or `{'error'}`.
  `translate_movie_info` uses it to rewrite a movie's title and plot in
  place.

Files:

- `wrappers.dfy`: `Option` and `Result`.
- `py_str.dfy` (`PyStr`): the Python `str` built-ins the code relies on, with
  their Python meaning. These are ASCII `lower`, `split`, `join`, `replace`,
  `rstrip` and slices that clamp out-of-range bounds. It also has `int()`
  and `str()` on integers, and the regular-expression classes `\d` and `\s`.
- `config_store.dfy` (`ConfigStore`): the store, as a map from section to a
  map from key to value. It has the three ways the code reads it:
  - `cfg.Section` raises `KeyError`;
  - `cfg.Section.key` gives `None`;
  - `getint` and `getboolean` raise `NoSectionError`, `NoOptionError` or
    `ValueError`.
- `url_grammar.dfy` (`UrlGrammar`): the `is_url` pattern and the proxy
  pattern of `validate_proxy`, written as predicates. Both use
  `re.IGNORECASE`, and `$` may also match just before a final newline, as
  in Python.
- `normalize.dfy` (`Normalize`): each stage and the overlay as a function
  from the store to the new store and the outcome (`Pass`, or the exception
  raised). The lemmas say what each stage computes, what it leaves alone,
  and what `validate` guarantees when it completes.
- `config.dfy` (`CoreConfig`): class `Config` with the store as its one
  field. Each stage, `validate` and the overlay are methods that update the
  field in place. Each method is proved to produce exactly what the matching
  `Normalize` function gives. `Load` runs the module's start-up sequence:
  read, overlay, validate.
- `translate.dfy` (`Translate`): the engine replies and the result shaping
  of `translate`, as a function and as a method with its loops.
  `translate_movie_info` appears as a function over the movie's fields and as
  a method over class `MovieInfo`.

Modelling choices:

- `os.sep` is a parameter.
- The HTTP clients are functions from the text sent to the reply received.
- Python's `str.lower` is modelled on ASCII letters only.
- `cfg.Translate.translate_title`, `translate_plot` and `engine` are never
  normalised by the configuration code. `translate_movie_info` therefore
  reads them as raw text and tests them for Python truthiness. As a result,
  `translate_title = no` still translates the title (`TitleSettingNo`).

## Model

| member | source | states |
|---|---|---|
| ConfigStore.LookupSemantics | core/config.py:24-39 | `cfg.Section.key` raises `KeyError(Section)` exactly when the section is missing. It gives `None` exactly when the section exists without the key. Otherwise it gives the stored value. |
| ConfigStore.Put | core/config.py:27 | Setting `cfg.Section.key` stores the value at that entry. Every other entry and the set of sections stay as they were. |
| ConfigStore.GetIntFailures | core/config.py:79-80 | `getint` raises exactly when the entry is missing, is not text, or is rejected by `int()`. It raises `NoSectionError` exactly when the section is missing. On success it returns `int()` of the raw text. |
| ConfigStore.GetBooleanFailures | core/config.py:106 | `getboolean` raises exactly when the entry is missing, is not text, or is not one of the boolean spellings. On success it returns the boolean that the raw text spells. |
| ConfigStore.ParseBoolIgnoresCase | core/config.py:112 | The boolean reading depends only on the lower-cased text. |
| ConfigStore.ParseBoolSpellings | core/config.py:112 | `yes`/`1`/`on`/`true` read as true and `no`/`0`/`off`/`false` as false, in any case. `maybe` and the empty text are rejected. |
| PyStr.Split | core/config.py:86 | `split(c)` gives one more piece than there are `c`s, and no piece holds `c`. |
| PyStr.JoinSplit | core/config.py:90-94 | Joining the pieces of a split with the separator gives back the text. |
| PyStr.RStrip | javsp/web/translate.py:89 | `rstrip(c)` gives a prefix that does not end in `c`, and removes only `c`s. |
| PyStr.PrefixSuffix | javsp/web/translate.py:83-84 | `s[:i] + s[i:] == s` for every integer `i`, negative and out-of-range ones included. |
| PyStr.ParseIntAccepts | core/config.py:79 | `int()` accepts exactly an optional sign followed by one or more decimal digits. |
| UrlGrammar.IsUrlHasHttpScheme | core/config.py:68 | Every accepted URL starts with `http://` or `https://`, in any letter case. |
| UrlGrammar.IsUrlRejectsNonHttp | core/config.py:67-74 | `http://`, `ftp://example.com`, `socks5://127.0.0.1:1080` and a scheme-less address are rejected. |
| UrlGrammar.IsUrlAcceptsLocalhost | core/config.py:70 | `http://localhost` is accepted. |
| UrlGrammar.IsUrlAcceptsUncheckedOctets | core/config.py:71 | The IPv4 branch does not bound the octets: `http://999.999.999.999` is accepted. |
| UrlGrammar.IsUrlAcceptsDomainWithPath | core/config.py:69-73 | `http://example.com/path` is accepted. |
| UrlGrammar.IsUrlHasNoBlank | core/config.py:67-73 | An accepted URL holds no whitespace character, except a final newline, which `$` lets through. |
| UrlGrammar.IsUrlAcceptsFinalNewline | core/config.py:73 | `http://localhost` followed by a newline is accepted. |
| UrlGrammar.IsUrlRejectsBlank | core/config.py:73 | `http://not a url` is rejected. |
| UrlGrammar.ProxySchemePrefix | core/config.py:115 | An accepted proxy address starts with `http://`, `socks5://` or `socks5h://`. |
| UrlGrammar.ProxyAddressOf | core/config.py:115 | An accepted scheme, a host of lower-case ASCII letters, digits, `-` and `.`, a colon and a digit string always form an accepted address. |
| UrlGrammar.ProxyAddressAcceptsHttp | core/config.py:115-119 | `http://127.0.0.1:1080`, the format the warning recommends, is accepted. |
| UrlGrammar.ProxyAddressRejectsBare | core/config.py:115 | An address without a scheme is rejected. |
| UrlGrammar.ProxyAddressRejectsHttps | core/config.py:115 | An `https://` address is rejected. |
| Normalize.NormIntResult | core/config.py:77-80 | `norm_int` completes exactly when both `getint` calls succeed. Then `retry` and `timeout` hold their integers. A missing `Network` section raises `NoSectionError`. |
| Normalize.NormIntFrame | core/config.py:77-80 | `norm_int` changes no entry but `retry` and `timeout`, and no section. |
| Normalize.MediaExtsShape | core/config.py:86-88 | One extension per `;`-separated piece. Each is lower case, starts with `.`, and is its piece with a `.` put in front unless it already had one. An empty piece gives `.`. |
| Normalize.MediaExtsIdempotent | core/config.py:86-88 | Normalising the joined extensions again changes nothing. |
| Normalize.MediaExtsExample | core/config.py:86-88 | `mp4;AVI` becomes `(".mp4", ".avi")`. |
| Normalize.MediaExtsOfEmpty | core/config.py:86-87 | An empty `media_ext` becomes `(".",)`. |
| Normalize.NormTuplesResult | core/config.py:83-94 | `norm_tuples` completes exactly when the three entries are text. A missing `File` section raises `KeyError('File')`. |
| Normalize.NormTuplesEntries | core/config.py:83-94 | On completion, `media_ext` holds the normalised extensions, and `ignore_folder` and `required_keys` hold tuples that join back to their raw text. |
| Normalize.NormTuplesFrame | core/config.py:83-94 | `norm_tuples` changes no entry but those three. |
| Normalize.BooleanEntries | core/config.py:99-105 | The five flag pairs are distinct. None is in `ProxyFree`, `Network`, `File` or `NamingRule`, and no other stage of `validate` writes one of these entries. |
| Normalize.NormBooleanFromResult | core/config.py:99-106 | The loop completes exactly when every flag reads as a boolean. Then every flag holds its boolean. |
| Normalize.NormBooleanResult | core/config.py:97-106 | The same for the five listed flags. |
| Normalize.NormBooleanFrame | core/config.py:97-106 | `norm_boolean` changes no entry but the five flags, and leaves `ProxyFree` as it was. |
| Normalize.ProxyTable | core/config.py:114-117 | The table is empty, or maps `http` and `https` to the lower-cased address. It is non-empty exactly when the lower-cased address matches the proxy pattern. |
| Normalize.ValidateProxyResult | core/config.py:109-120 | `validate_proxy` completes exactly when `use_proxy` reads false, or reads true with a textual `proxy`. `proxy` then holds a table, which is empty exactly when the proxy is off or the warning is logged. A non-empty table maps both schemes to the lower-cased address. |
| Normalize.ValidateProxyFrame | core/config.py:109-120 | `validate_proxy` changes no entry but `Network.proxy`. |
| Normalize.ConvertNamingRuleResult | core/config.py:123-129 | `convert_naming_rule` completes exactly when `output_folder` and `save_dir` are text. Then `save_dir` is the template of `output_folder + sep + save_dir`, and `filename` is the template of what it held. A failure changes nothing. |
| Normalize.ConvertNamingRuleFrame | core/config.py:123-129 | `convert_naming_rule` changes no entry but `save_dir` and `filename`. |
| Normalize.NormalizeUrlResult | core/config.py:136-139 | A checked address is blank, or a lower-case `http` URL that `is_url` accepts. It is the lower-cased address when that starts with `http`, and the lower-cased address after `http://` otherwise. Either is kept exactly when `is_url` accepts it, and is blanked otherwise. |
| Normalize.NormalizeUrlIdempotent | core/config.py:136-139 | Checking a checked address again changes nothing. |
| Normalize.NormalizeUrlAddsScheme | core/config.py:136-139 | `EXAMPLE.com/path` becomes `http://example.com/path`. |
| Normalize.NormalizeUrlRejectsBlank | core/config.py:136-139 | `not a url` is blanked. |
| Normalize.NormalizeUrlLowersCase | core/config.py:136-139 | `HTTP://LOCALHOST` becomes `http://localhost`. |
| Normalize.ProxyFreeStep | core/config.py:132-139 | `check_proxy_free_url` changes nothing outside `ProxyFree`. |
| Normalize.ProxyFreeResult | core/config.py:132-139 | `check_proxy_free_url` completes exactly when `ProxyFree` exists. It keeps the sites and replaces each address by its checked form, which is blank or an accepted lower-case `http` URL. |
| Normalize.RunStage | core/config.py:55-61 | Every stage keeps the `ProxyFree` values as text. |
| Normalize.StageFrame | core/config.py:55-61 | Each stage changes only the entries it converts. Only `check_proxy_free_url` touches `ProxyFree`. |
| Normalize.StageDone | core/config.py:55-61 | A stage that completes leaves its entries in their converted form: integers, tuples, booleans, a proxies table, templates, checked URLs. |
| Normalize.RunStagesResult | core/config.py:51-61 | After a run of distinct stages that completes, every stage's entries are still converted. Any run changes only the entries its stages convert. |
| Normalize.ValidateResult | core/config.py:51-61 | After `validate` completes, all six stages' conversions hold together. Whether it completes or raises, it changes only the converted entries and keeps the sections. |
| Normalize.ValidateWrites | core/config.py:51-61 | The entries the six stages convert are exactly the thirteen of `CONVERTED`. |
| Normalize.NormTuplesSplits | core/config.py:83-94 | On completion, `media_ext` holds the extensions of its text, `ignore_folder` the `;`-split of its text and `required_keys` the `,`-split of its text. |
| Normalize.StageValue | core/config.py:55-61 | A stage run on a store that agrees with the file as read on the entries it reads completes exactly when the file is ready for it. Its entries then hold what it computes from the file. |
| Normalize.WritesUnread | core/config.py:55-61 | No stage reads an entry that another stage writes, and no stage but `check_proxy_free_url` reads `ProxyFree`. |
| Normalize.RunStagesValues | core/config.py:55-61 | A run of distinct stages, with `check_proxy_free_url` only last, completes exactly when the file is ready for every stage. Every stage's entries then hold what that stage computes from the file. |
| Normalize.ValidateValues | core/config.py:51-61 | `validate` completes exactly when the file is ready for all six stages. It then leaves `retry` and `timeout` as the integers `getint` reads, `media_ext` as the extensions, the two splits, the five booleans, `proxy` as `{}` when `use_proxy` is off or as the address's table when it is on, the two templates, and every proxy-free address normalised. |
| Normalize.ExampleValues | core/config.py:51-61 | On any file ready for `validate` with `retry = 3`, `timeout = 10`, `media_ext = mp4;AVI` and `use_proxy = false`, `validate` completes with the integers 3 and 10, `(".mp4", ".avi")` and an empty proxies table. |
| Normalize.ValidateExample | core/config.py:51-61 | A small file with those four settings, the other flags off and no proxy-free site is ready for `validate`, so it completes with those values. |
| Normalize.OverlayPaths | core/config.py:172-175 | `-i` and `-o` change only `File.scan_dir` and `NamingRule.output_folder`. |
| Normalize.OverlayPathsResult | core/config.py:172-175 | They fail exactly on a missing section. Each given option sets its entry to its value, and an absent or empty option changes nothing. |
| Normalize.OverwriteStep | core/config.py:167-175 | As written, the overlay changes only `Network.proxy`, `File.scan_dir` and `NamingRule.output_folder`. |
| Normalize.OverwriteResult | core/config.py:167-175 | As written, the overlay fails exactly when a given option's section is missing. |
| Normalize.OverwriteEntries | core/config.py:167-175 | As written, `-x` sets `Network.proxy` to the address and leaves `use_proxy` as it was. `-i` and `-o` set their entries. |
| Normalize.OverwriteProxyIgnored | core/config.py:169-171 | As written, with `use_proxy = no`, a well-formed `-x` address ends up as an empty proxies table after `validate_proxy`. |
| Normalize.OverwriteIntendedStep | core/config.py:167-175 | The intended overlay changes only `use_proxy`, `proxy`, `scan_dir` and `output_folder`. |
| Normalize.OverwriteIntendedResult | core/config.py:167-175 | The intended overlay fails exactly where the written one does. |
| Normalize.OverwriteIntendedEntries | core/config.py:167-175 | The intended overlay sets `use_proxy` to `yes` and `proxy` to the address for `-x`. `-i` and `-o` act as written. |
| Normalize.OverwriteIntendedHonoursProxy | core/config.py:169-171 | After the intended overlay with a well-formed `-x` address, `validate_proxy` completes. It maps both schemes to that address. |
| CoreConfig.Config.constructor | core/config.py:31-34 | The new configuration holds the sections read. |
| CoreConfig.Config.NormInt | core/config.py:77-80 | In place, it leaves the store and outcome of `NormIntStep`. |
| CoreConfig.Config.NormTuples | core/config.py:83-94 | In place, with the loop over the pieces, it leaves the store and outcome of `NormTuplesStep`. |
| CoreConfig.Config.NormBoolean | core/config.py:97-106 | In place, with the loop over the five pairs, it leaves the store and outcome of `NormBooleanStep`. |
| CoreConfig.Config.ValidateProxy | core/config.py:109-120 | In place, it leaves the store and outcome of `ValidateProxyStep`. It reports whether the warning is logged. |
| CoreConfig.Config.ConvertNamingRule | core/config.py:123-129 | In place, it leaves the store and outcome of `ConvertNamingRuleStep`. |
| CoreConfig.Config.CheckProxyFreeUrl | core/config.py:132-139 | The loop rewrites each site's address in place. It leaves the store and outcome of `ProxyFreeStep`. |
| CoreConfig.Config.Run | core/config.py:55-61 | Running the named stage in place gives that stage's store and outcome. |
| CoreConfig.Config.Validate | core/config.py:51-61 | The six stages run in order, in place, stopping at the first that raises. The result is the store and outcome of `ValidateStep`. |
| CoreConfig.Config.Overwrite | core/config.py:167-175 | The overlay runs in place as written: `-x` writes `yes` and then the address into `proxy`. It leaves the store and outcome of `OverwriteStep`. |
| CoreConfig.Config.OverwritePaths | core/config.py:172-175 | In place, it leaves the store and outcome of `OverlayPaths`. |
| CoreConfig.Load | core/config.py:178-183 | A fresh configuration holding the file's sections gets the overlay as written (`OverwriteStep`). If the overlay does not fail, `validate` runs, and the result is their composition. |
| CoreConfig.OverwriteKeepsProxyFree | core/config.py:167-175 | The overlay keeps every `ProxyFree` value as text. |
| Translate.ErrorTextShape | javsp/web/translate.py:71 | An error text starts with the engine and `: `, and ends with `: ` and the message. |
| Translate.ExceptionTextIs | javsp/web/translate.py:108 | An exception is reported as the engine, `: -2: Exception: ` and the `repr`. |
| Translate.ProtectAbsent | javsp/web/translate.py:74-75 | Names that do not occur in the text leave it unchanged. |
| Translate.Slices | javsp/web/translate.py:81-84 | The cut gives one piece per length. |
| Translate.SlicesCover | javsp/web/translate.py:81-84 | The pieces, followed by what is left, give back the text, for any lengths. |
| Translate.SlicesExact | javsp/web/translate.py:81-84 | Non-negative lengths that fit give pieces of exactly those lengths. Lengths adding up to the text's length leave nothing. |
| Translate.TransBreaksShape | javsp/web/translate.py:86-90 | There is one translated sentence per length. Each is its piece with the trailing spaces, and only those, removed. |
| Translate.ProtectNames | javsp/web/translate.py:74-75 | The loop wraps each actress's name, in order, in the dictionary markup. |
| Translate.CutSentences | javsp/web/translate.py:81-84 | The loop gives the pieces, and what is left, of the cut. Together they make up the text. |
| Translate.CutTranslation | javsp/web/translate.py:86-90 | The loop gives the right-stripped pieces of the translation. |
| Translate.Translate | javsp/web/translate.py:53-132 | With its loops, `translate` returns the result of `Translation` for every engine and reply. That includes the Claude and Groq branches as written (`LlmShape`) and the Baidu and Bing client exceptions that escape. |
| Translate.BingResultShape | javsp/web/translate.py:72-92 | Bing gives one source sentence per source length, and these with what is left make up the protected text. It gives one translated sentence per translated length, none ending in a space. The translation is their concatenation. |
| Translate.GoogleResultShape | javsp/web/translate.py:95-108 | Google gives one source and one translated sentence per sentence, and the translation is their concatenation. A sentence without `orig` or `trans` is reported as the `KeyError` exception. |
| Translate.BaiduResultShape | javsp/web/translate.py:64-69 | The translation is the paragraphs joined by newlines. Splitting it at newlines gives back the paragraphs when they hold none. |
| Translate.UnknownEngine | javsp/web/translate.py:127-132 | `{}` comes back exactly for an engine not among the five. |
| Translate.ClientExceptionEscapes | javsp/web/translate.py:64-94 | `translate` raises exactly when the Baidu or Bing client raises, and it raises that client's exception. The other engines' exceptions are caught. |
| Translate.ErrorReported | javsp/web/translate.py:64-126 | An engine that reports an error gives `{'error': ...}`. A translation comes only from a reply that is not an error. |
| Translate.ErrorTexts | javsp/web/translate.py:64-106 | The Baidu, Bing and Google error texts are `engine: code: message`. |
| Translate.GoogleExceptionText | javsp/web/translate.py:107-108 | A Google exception is reported as `google: -2: Exception: ` and its `repr`. |
| Translate.LlmTextMistaken | javsp/web/translate.py:109-126 | As written, a Claude or Groq translation containing `error_code` is reported as an error and not returned. |
| Translate.LlmTextMistakenExample | javsp/web/translate.py:112 | The translation `error_code` is one such text. |
| Translate.LlmShapeIntendedKeepsText | javsp/web/translate.py:109-126 | The intended branch returns every text reply as the translation. It agrees with the written branch on every other reply. |
| Translate.TranslateMovieInfo | javsp/web/translate.py:24-50 | The method rewrites the movie's fields in place. It leaves the fields and outcome of `TranslateInfo`, which uses `translate` as written. |
| Translate.TitleResult | javsp/web/translate.py:27-39 | The title and the original title change only when the title is non-empty, the setting is on and there is no original title yet. Then a translation moves the title to the original title and puts the translation in its place. An error returns `False` with nothing changed. The actresses never change. |
| Translate.TitleStepKeepsPlot | javsp/web/translate.py:27-39 | The title step leaves the plot, its original and the actresses as they were. |
| Translate.PlotResult | javsp/web/translate.py:41-49 | The plot changes only when the title step went on, the plot is non-empty and the setting is on. Then a translation moves the plot to `ori_plot`, puts the translation in its place and returns `True`. An error returns `False` and keeps the plot. |
| Translate.InfoOutcome | javsp/web/translate.py:24-50 | `False` comes back only after a translation reported an error. The call raises only on a missing `Translate` section, with `KeyError('error')` for an engine `translate` does not know, or with the client's exception when the engine is Baidu or Bing. |
| Translate.TitleSettingNo | javsp/web/translate.py:27 | With `translate_title = no`, the title is still translated. |
| Translate.LlmErrorCodeKeepsTitle | javsp/web/translate.py:28-39 | As written, a Claude or Groq title translation containing `error_code` makes the call return `False` and leaves every field as it was. |

## Left out

- Reading the file (`Config.read` and its encoding fallbacks) is not modelled. Neither are `parse_args`, `-c`, the `-m`/`-e`/`-s` switches, the logging set-up and the `__main__` block. The model starts from the parsed sections and the parsed `-i`, `-o` and `-x` values.
- `ConfigParser` interpolation, the `DEFAULT` section and the lower-casing of option names are not modelled. Keys are taken as already lower-cased.
- `DotDict.__delattr__` is not modelled, because the core never deletes an entry.
- `int()` is modelled on ASCII digits with an optional sign. Surrounding whitespace, underscores between digits and non-ASCII digits, which Python also accepts, are not modelled.
- `str.lower()` is modelled on ASCII letters only. Letters outside ASCII are taken as unchanged.
- The patterns of `is_url` and `validate_proxy` are modelled on ASCII only. In Python, `\d` also matches non-ASCII decimal digits, and with `re.IGNORECASE` the class `[A-Z]` also matches `ı`, `İ`, `ſ` and the Kelvin sign, so `http://ſite.com` passes `is_url`. The model rejects such addresses.
- The warning `validate_proxy` logs is modelled by `ProxyWarned` and the `warned` result. The other log messages are not modelled.
- `os.sep` is a parameter.
- `string.Template` is kept as an unevaluated wrapper around what it was given.
- `check_proxy_free_url` walks the sites in `dict` order. The model takes them in any order, which gives the same section because each site is rewritten independently.
- Normalize.ProxyFreeStep: requires every `ProxyFree` value to be text. That holds for every file `ConfigParser` reads, because no earlier stage and no option touches `ProxyFree`. A non-text value, which would raise `AttributeError`, is not modelled.
- CoreConfig.Config.CheckProxyFreeUrl: carries the same requirement, for the same reason.
- CoreConfig.Config.Validate: carries the same requirement, for the same reason.
- CoreConfig.Config.Run: carries the same requirement, for the same reason.
- The HTTP clients (`baidu_translate`, `bing_translate`, `google_trans`, `claude_translate`, `groq_translate`) are not modelled. This covers their requests, keys, signatures, rate-limit sleeps and JSON decoding. Each is a function from the text sent to the reply it gives, in the shapes the shaping code handles, including an exception the client raises.
- Malformed Baidu and Bing replies are not modelled as replies: a success reply missing the fields the code indexes, or an error reply missing its code or message. Those calls are outside any `try`, so the `KeyError`, `IndexError` or `TypeError` they raise escapes `translate`, with the same effect as the `BaiduRaised` and `BingRaised` replies. The malformed Google, Claude and Groq replies (a Google reply without `sentences` or `error_code`, a Claude or Groq error reply without `error_msg`) raise inside the `try` of their branch. That exception is caught and reported as `<engine>: -2: Exception: <repr>`, for example `google: -2: Exception: KeyError('error_code')`, which the `GoogleRaised` and `LlmRaised` replies produce with that `repr`.
- `STR_INDEX_ERROR` uses the `TypeError` wording of recent Python 3 versions.
- `cfg.Translate.engine` is given to `translate` as its text. A missing entry (`None`) is taken as the empty name, which `translate` treats the same way: it returns `{}`, and `translate_movie_info` then raises `KeyError('error')`.
- Only the `MovieInfo` fields `translate_movie_info` reads or writes are modelled. `ori_plot`, `ori_title_break` and `title_break` stand as `None` when they were never set.

## Findings

The in-place methods, `Load` and `Translation` follow the code as written. The corrected definitions stand beside them, each with its intended property proved.

| source | as written | input that shows it | evidently intended | confidence | as-written member | corrected member |
|---|---|---|---|---|---|---|
| core/config.py:170 | `-x` first sets `Network.proxy` to `yes`, then overwrites it with the address. `Network.use_proxy` is never touched. | A file with `use_proxy = no` and the option `-x http://127.0.0.1:1080`: `validate_proxy` sees the proxy switched off and leaves an empty proxies table. | `-x` switches the proxy on: `use_proxy` becomes `yes`, and `proxy` becomes the address. | not executed | Normalize.OverwriteStep, Normalize.OverwriteProxyIgnored | Normalize.OverwriteIntendedStep, Normalize.OverwriteIntendedHonoursProxy |
| javsp/web/translate.py:112 | The Claude branch tests `'error_code' not in result` on the reply. A successful reply is a `str`, so this is a substring test. A translation containing `error_code` then reaches `result['error_code']`, which raises `TypeError`. | The Claude reply text `error_code`: `translate` returns an exception error instead of the translation. The Groq branch at line 121 behaves the same way. | Any text reply is the translation. Only the error dictionary is reported. | not executed | Translate.LlmShape, Translate.LlmTextMistaken, Translate.LlmTextMistakenExample | Translate.LlmShapeIntended, Translate.LlmShapeIntendedKeepsText |

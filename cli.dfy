/** The command layer of resume-pycli: the global callback that loads the
    résumé and resolves the theme into `Options`, the `validate` command's exit
    decision, and the `export` command's flag resolution and dispatch. */
module Cli {
  import opened Values
  import opened Effects

  /** What can end a command early. */
  datatype Exception =
    | Exit(code: int)             // `typer.Exit(code=...)`
    | ResumeUnreadable            // reading or parsing the résumé file raised
    | NotADict                    // `.get` on a résumé that is not a JSON object
    | ThemeNotFound(name: Json)   // `utils.find_theme` raised for this name
    | SchemaUnreadable            // parsing the schema file raised
    | ValidatorFailed             // `utils.validate` raised
    | CallFailed(call: Action)    // mkdir or an exporter raised

  datatype Outcome = Completed | Raised(exc: Exception)

  /** The process exit status: 0 on completion, the code of a `typer.Exit`,
      and 1 for any other uncaught exception. */
  function ExitCode(o: Outcome): int
  {
    match o
    case Completed => 0
    case Raised(Exit(code)) => code
    case Raised(_) => 1
  }

  /** The theme name handed to `utils.find_theme`: `theme or resume.get("theme", "base")`.
      `None` when the override is empty and the résumé is not a dictionary, so
      that `.get` raises. */
  function ThemeName(themeOverride: string, document: Json): (name: Option<Json>)
    ensures themeOverride != "" ==> name == Some(JString(themeOverride))
    ensures themeOverride == "" && document.JObject? ==>
      name.Some? && (if "theme" in document.fields then name.value == document.fields["theme"]
                     else name.value == JString("base"))
    ensures themeOverride == "" && !document.JObject? ==> name.None?
  {
    if Truthy(JString(themeOverride)) then Some(JString(themeOverride))
    else match document
      case JObject(fields) => Some(DictGet(fields, "theme", JString("base")))
      case _ => None
  }

  /** The global callback completes: the résumé parsed, a theme name was
      chosen and `utils.find_theme` found it. */
  predicate StartsUp(document: Option<Json>, themeOverride: string, findTheme: Json -> Option<ThemeDir>)
  {
    document.Some? && ThemeName(themeOverride, document.value).Some? &&
    findTheme(ThemeName(themeOverride, document.value).value).Some?
  }

  /** The class-level global options. `None` stands for an attribute that has
      not been assigned yet. */
  class Options {
    var resume: Option<Json>
    var theme: Option<ThemeDir>

    constructor ()
      ensures resume == None && theme == None
    {
      resume := None;
      theme := None;
    }

    /** Both attributes are assigned, as every command expects. */
    predicate Loaded()
      reads this
    {
      resume.Some? && theme.Some?
    }

    /** The global callback. `document` is the parsed content of the résumé
        file, or `None` when reading or parsing it raised; `findTheme` is
        `utils.find_theme`, `None` when it raises. */
    method Callback(document: Option<Json>, themeOverride: string, findTheme: Json -> Option<ThemeDir>)
      returns (outcome: Outcome)
      modifies this
      ensures document.None? ==>
        outcome == Raised(ResumeUnreadable) && resume == old(resume) && theme == old(theme)
      ensures document.Some? ==> resume == document
      ensures document.Some? && ThemeName(themeOverride, document.value).None? ==>
        outcome == Raised(NotADict) && theme == old(theme)
      ensures document.Some? && ThemeName(themeOverride, document.value).Some? ==>
        var name := ThemeName(themeOverride, document.value).value;
        if findTheme(name).Some? then outcome == Completed && theme == findTheme(name)
        else outcome == Raised(ThemeNotFound(name)) && theme == old(theme)
      ensures outcome.Completed? <==> StartsUp(document, themeOverride, findTheme)
      ensures outcome.Completed? ==> Loaded()
    {
      if document.None? {
        return Raised(ResumeUnreadable);
      }
      resume := document;
      var name := ThemeName(themeOverride, document.value);
      if name.None? {
        return Raised(NotADict);
      }
      var found := findTheme(name.value);
      if found.None? {
        return Raised(ThemeNotFound(name.value));
      }
      theme := found;
      outcome := Completed;
    }
  }

  /** The outcome of `validate`: parsing the schema and the validator may
      raise; otherwise the command raises `typer.Exit(code=1)` when the
      validator's result is truthy and completes when it is falsy.
      `validator` is `utils.validate`, `None` when it raises. */
  function ValidateOutcome(resume: Json, schema: Option<Json>, validator: (Json, Json) -> Option<Json>): (r: Outcome)
    ensures r.Completed? <==>
      schema.Some? && validator(resume, schema.value).Some? && !Truthy(validator(resume, schema.value).value)
    ensures schema.Some? && validator(resume, schema.value).Some? && r.Raised? ==> r.exc == Exit(1)
    ensures ExitCode(r) == (if r.Completed? then 0 else 1)
  {
    match schema
    case None => Raised(SchemaUnreadable)
    case Some(s) =>
      match validator(resume, s)
      case None => Raised(ValidatorFailed)
      case Some(err) => if Truthy(err) then Raised(Exit(1)) else Completed
  }

  /** Which formats `export` writes. */
  datatype Formats = Formats(html: bool, pdf: bool)

  /** The rule the flag chain implements, for one format: an explicit flag is
      obeyed, and an unset one exports its format unless the other format was
      explicitly requested. */
  predicate Wanted(own: Option<bool>, other: Option<bool>)
  {
    if own.Some? then own.value else !FlagSet(other)
  }

  /** The `--pdf/--no-pdf` and `--html/--no-html` defaulting chain, followed by
      the truth tests that decide each export (an unset flag is falsy). */
  function ResolveFlags(toPdf: Option<bool>, toHtml: Option<bool>): (f: Formats)
    ensures f.html == Wanted(toHtml, toPdf)
    ensures f.pdf == Wanted(toPdf, toHtml)
  {
    var (html, pdf) :=
      if toHtml.None? && toPdf.None? then (Some(true), Some(true))
      else if toHtml.None? && !FlagSet(toPdf) then (Some(true), toPdf)
      else if toPdf.None? && !FlagSet(toHtml) then (toHtml, Some(true))
      else (toHtml, toPdf);
    Formats(FlagSet(html), FlagSet(pdf))
  }

  /** The calls `export` makes when none raises: create the output directory,
      then the HTML export, then the PDF export, each only when chosen. */
  function ExportPlan(resume: Json, theme: ThemeDir, output: Path, engine: Backend, f: Formats): (plan: seq<Action>)
    ensures plan != [] && plan[0] == MakeDir(output)
    ensures ExportHtml(resume, theme, output) in plan <==> f.html
    ensures ExportPdf(resume, theme, output, engine) in plan <==> f.pdf
  {
    [MakeDir(output)]
    + (if f.html then [ExportHtml(resume, theme, output)] else [])
    + (if f.pdf then [ExportPdf(resume, theme, output, engine)] else [])
  }

  /** The `export` command: the calls it makes, in order, and how it ends.
      `raises` tells which calls out of the command layer raise. */
  method Export(opts: Options, toPdf: Option<bool>, pdfBackend: Backend, toHtml: Option<bool>,
                output: Path, raises: Action -> bool)
    returns (calls: seq<Action>, outcome: Outcome)
    requires opts.Loaded()
    ensures calls == CallsMade(ExportPlan(opts.resume.value, opts.theme.value, output, pdfBackend,
                                          ResolveFlags(toPdf, toHtml)), raises)
    ensures outcome.Completed? <==> !AnyRaises(calls, raises)
    ensures outcome.Raised? ==> calls != [] && outcome.exc == CallFailed(calls[|calls| - 1])
  {
    ghost var plan := ExportPlan(opts.resume.value, opts.theme.value, output, pdfBackend,
                                 ResolveFlags(toPdf, toHtml));
    var mkdir := MakeDir(output);
    calls := [mkdir];
    if raises(mkdir) {
      assert calls == CallsMade(plan, raises);
      return calls, Raised(CallFailed(mkdir));
    }
    var formats := ResolveFlags(toPdf, toHtml);
    if formats.html {
      var call := ExportHtml(opts.resume.value, opts.theme.value, output);
      calls := calls + [call];
      if raises(call) {
        assert calls == CallsMade(plan, raises);
        return calls, Raised(CallFailed(call));
      }
    }
    if formats.pdf {
      var call := ExportPdf(opts.resume.value, opts.theme.value, output, pdfBackend);
      calls := calls + [call];
      if raises(call) {
        assert calls == CallsMade(plan, raises);
        return calls, Raised(CallFailed(call));
      }
    }
    assert calls == CallsMade(plan, raises);
    outcome := Completed;
  }

  /** The commands modelled here, with their options. */
  datatype Command =
    | ValidateCommand(schema: Option<Json>)
    | ExportCommand(toPdf: Option<bool>, pdfBackend: Backend, toHtml: Option<bool>, output: Path)

  /** One run of the program: the global callback, then the command when the
      callback completed. Returns the calls made and the exit status. */
  method Invoke(opts: Options, document: Option<Json>, themeOverride: string,
                findTheme: Json -> Option<ThemeDir>, cmd: Command,
                validator: (Json, Json) -> Option<Json>, raises: Action -> bool)
    returns (calls: seq<Action>, exit: int)
    modifies opts
    ensures document.None? ==> opts.resume == old(opts.resume) && opts.theme == old(opts.theme)
    ensures document.Some? ==> opts.resume == document
    ensures StartsUp(document, themeOverride, findTheme) ==>
      opts.theme == findTheme(ThemeName(themeOverride, document.value).value)
    ensures !StartsUp(document, themeOverride, findTheme) ==> opts.theme == old(opts.theme)
    ensures !StartsUp(document, themeOverride, findTheme) ==> calls == [] && exit == 1
    ensures StartsUp(document, themeOverride, findTheme) && cmd.ValidateCommand? ==>
      calls == [] && exit == ExitCode(ValidateOutcome(document.value, cmd.schema, validator))
    ensures StartsUp(document, themeOverride, findTheme) && cmd.ExportCommand? ==>
      var theme := findTheme(ThemeName(themeOverride, document.value).value).value;
      calls == CallsMade(ExportPlan(document.value, theme, cmd.output, cmd.pdfBackend,
                                    ResolveFlags(cmd.toPdf, cmd.toHtml)), raises)
      && exit == (if AnyRaises(calls, raises) then 1 else 0)
  {
    var started := opts.Callback(document, themeOverride, findTheme);
    if !started.Completed? {
      return [], ExitCode(started);
    }
    match cmd
    case ValidateCommand(schema) =>
      calls := [];
      exit := ExitCode(ValidateOutcome(opts.resume.value, schema, validator));
    case ExportCommand(toPdf, pdfBackend, toHtml, output) =>
      var outcome;
      calls, outcome := Export(opts, toPdf, pdfBackend, toHtml, output, raises);
      exit := ExitCode(outcome);
  }
}

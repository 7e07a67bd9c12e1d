/** What the command layer promises, stated over the model of `Cli`. */
module CliProperties {
  import opened Values
  import opened Effects
  import opened Cli

  /** The export flags as the command's tests pin them down: no flag exports
      both formats, `--no-pdf` alone only HTML, `--no-html` alone only PDF,
      `--pdf` alone only PDF and `--html` alone only HTML. */
  lemma SingleFlagTable()
    ensures ResolveFlags(None, None) == Formats(true, true)
    ensures ResolveFlags(Some(false), None) == Formats(true, false)
    ensures ResolveFlags(None, Some(false)) == Formats(false, true)
    ensures ResolveFlags(Some(true), None) == Formats(false, true)
    ensures ResolveFlags(None, Some(true)) == Formats(true, false)
  {
  }

  /** With both flags given no defaulting happens: each is obeyed as given,
      so `--no-pdf --no-html` exports nothing. */
  lemma BothFlagsGiven(toPdf: bool, toHtml: bool)
    ensures ResolveFlags(Some(toPdf), Some(toHtml)) == Formats(toHtml, toPdf)
  {
  }

  /** The chain treats the two flags differently, but the decision it reaches
      is symmetric: swapping the flags swaps the formats. */
  lemma FlagsSymmetric(toPdf: Option<bool>, toHtml: Option<bool>)
    ensures ResolveFlags(toPdf, toHtml).html == ResolveFlags(toHtml, toPdf).pdf
    ensures ResolveFlags(toPdf, toHtml).pdf == ResolveFlags(toHtml, toPdf).html
  {
  }

  /** Nothing is exported exactly when both formats are explicitly switched off. */
  lemma NothingExportedOnlyWhenBothOff(toPdf: Option<bool>, toHtml: Option<bool>)
    ensures var f := ResolveFlags(toPdf, toHtml);
      !f.html && !f.pdf <==> toPdf == Some(false) && toHtml == Some(false)
  {
  }

  /** With exactly one flag given, exactly one format is exported. */
  lemma OneFlagOneFormat(toPdf: Option<bool>, toHtml: Option<bool>)
    requires toPdf.None? != toHtml.None?
    ensures ResolveFlags(toPdf, toHtml).html != ResolveFlags(toPdf, toHtml).pdf
  {
  }

  /** The calls of an export: the directory is made once and first, the HTML
      export comes before the PDF export, both receive the same résumé, theme
      and output directory, and the PDF exporter receives the selected engine. */
  lemma ExportPlanOrder(resume: Json, theme: ThemeDir, output: Path, engine: Backend, f: Formats)
    ensures var plan := ExportPlan(resume, theme, output, engine, f);
      |plan| == 1 + (if f.html then 1 else 0) + (if f.pdf then 1 else 0) &&
      (forall i :: 0 <= i < |plan| ==> (plan[i].MakeDir? <==> i == 0)) &&
      (forall i :: 0 <= i < |plan| && plan[i].ExportHtml? ==> plan[i] == ExportHtml(resume, theme, output)) &&
      (forall i :: 0 <= i < |plan| && plan[i].ExportPdf? ==> plan[i] == ExportPdf(resume, theme, output, engine)) &&
      (forall i, j :: 0 <= i < |plan| && 0 <= j < |plan| && plan[i].ExportHtml? && plan[j].ExportPdf? ==> i < j)
  {
  }

  /** A plain `export`, with every option left at its default, creates
      `public`, exports HTML into it and then PDF with Playwright. */
  lemma PlainExportPlan(resume: Json, theme: ThemeDir)
    ensures ExportPlan(resume, theme, DefaultOutput, DefaultBackend, ResolveFlags(None, None)) ==
      [MakeDir(["public"]), ExportHtml(resume, theme, ["public"]), ExportPdf(resume, theme, ["public"], Playwright)]
  {
  }

  /** Whatever the flags and whatever raises, every exporter that is called
      finds its output directory already created. */
  lemma {:induction false} ExportDirsReady(d: Disk, resume: Json, theme: ThemeDir, output: Path,
                                           engine: Backend, f: Formats, raises: Action -> bool)
    ensures DirsReady(d, CallsMade(ExportPlan(resume, theme, output, engine, f), raises))
  {
    var plan := ExportPlan(resume, theme, output, engine, f);
    var d1 := Perform(d, plan[0]);
    assert output == [] || output in d1.dirs;
    var rest := plan[1..];
    assert forall k :: 0 <= k < |rest| ==> ReadyFor(d1, rest[k]) && Perform(d1, rest[k]).dirs == d1.dirs;
    if |rest| == 2 {
      assert DirsReady(Perform(d1, rest[0]), rest[1..]);
    }
    assert DirsReady(d1, rest);
    assert DirsReady(d, plan);
    DirsReadyPrefix(d, plan, CallsMade(plan, raises));
  }

  /** An export in which no call raises leaves `index.html` in the output
      directory exactly when HTML was chosen, `index.pdf` exactly when PDF was
      chosen (neither existing before), and the output directory in place. */
  lemma {:induction false} ExportWritesChosenFiles(d: Disk, resume: Json, theme: ThemeDir, output: Path,
                                                   engine: Backend, toPdf: Option<bool>,
                                                   toHtml: Option<bool>, raises: Action -> bool)
    requires output + ["index.html"] !in d.files && output + ["index.pdf"] !in d.files
    requires !AnyRaises(ExportPlan(resume, theme, output, engine, ResolveFlags(toPdf, toHtml)), raises)
    ensures var f := ResolveFlags(toPdf, toHtml);
      var after := PerformAll(d, CallsMade(ExportPlan(resume, theme, output, engine, f), raises));
      (output + ["index.html"] in after.files <==> f.html) &&
      (output + ["index.pdf"] in after.files <==> f.pdf) &&
      (output != [] ==> output in after.dirs)
  {
    var f := ResolveFlags(toPdf, toHtml);
    var plan := ExportPlan(resume, theme, output, engine, f);
    CallsMadeWithoutFailure(plan, raises);
    var htmlFile, pdfFile := output + ["index.html"], output + ["index.pdf"];
    assert htmlFile != pdfFile by {
      assert htmlFile[|output|] != pdfFile[|output|];
    }
    FilesAfter(d, plan, htmlFile);
    FilesAfter(d, plan, pdfFile);
    if f.html {
      var i :| 0 <= i < |plan| && plan[i] == ExportHtml(resume, theme, output);
      assert Writes(plan[i]) == Some(htmlFile);
    }
    if f.pdf {
      var i :| 0 <= i < |plan| && plan[i] == ExportPdf(resume, theme, output, engine);
      assert Writes(plan[i]) == Some(pdfFile);
    }
    PerformAllGrows(Perform(d, plan[0]), plan[1..]);
  }

  /** Exporting again with the same options leaves the disk as one export did. */
  lemma ExportRerunIdempotent(d: Disk, resume: Json, theme: ThemeDir, output: Path,
                              engine: Backend, f: Formats)
    ensures var plan := ExportPlan(resume, theme, output, engine, f);
      PerformAll(PerformAll(d, plan), plan) == PerformAll(d, plan)
  {
    PerformAllIdempotent(d, ExportPlan(resume, theme, output, engine, f));
  }

  /** If creating the output directory raises, no exporter is called. */
  lemma MkdirFailureExportsNothing(resume: Json, theme: ThemeDir, output: Path, engine: Backend,
                                   f: Formats, raises: Action -> bool)
    requires raises(MakeDir(output))
    ensures CallsMade(ExportPlan(resume, theme, output, engine, f), raises) == [MakeDir(output)]
  {
  }

  /** A failing HTML export is not followed by the PDF export: there is no
      fallback and no further call. */
  lemma HtmlFailureSkipsPdf(resume: Json, theme: ThemeDir, output: Path, engine: Backend,
                            f: Formats, raises: Action -> bool)
    requires f.html && raises(ExportHtml(resume, theme, output))
    ensures ExportPdf(resume, theme, output, engine) !in
      CallsMade(ExportPlan(resume, theme, output, engine, f), raises)
  {
  }

  /** A validator returning a list of errors fails the command exactly when
      the list is non-empty. */
  lemma ValidateErrorList(resume: Json, schema: Json, validator: (Json, Json) -> Option<Json>,
                          errors: seq<Json>)
    requires validator(resume, schema) == Some(JArray(errors))
    ensures ExitCode(ValidateOutcome(resume, Some(schema), validator)) == (if errors == [] then 0 else 1)
  {
  }

  /** A non-empty `--theme` is used whatever the résumé holds, even when it is
      not a dictionary. */
  lemma OverrideIgnoresDocument(themeOverride: string, document: Json, other: Json)
    requires themeOverride != ""
    ensures ThemeName(themeOverride, document) == ThemeName(themeOverride, other) == Some(JString(themeOverride))
  {
  }

  /** Without an override, a résumé's `"theme"` entry is used as it is, even
      when it is the empty string: only an absent entry falls back to `"base"`. */
  lemma DocumentThemeUsedAsIs(fields: map<string, Json>)
    requires "theme" in fields && fields["theme"] == JString("")
    ensures ThemeName("", JObject(fields)) == Some(JString(""))
  {
  }
}

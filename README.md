# resume-pycli command layer in Dafny

resume-pycli is a command-line tool. It turns a JSON résumé into an HTML site
and a PDF through a theme. This project models its command layer,
`resume_pycli/cli.py`, which covers four things:

- **Global callback** (`main`). It loads the résumé into the class-level
  `Options` and picks the theme name. A non-empty `--theme` wins. Otherwise the
  résumé's `"theme"` entry is used, and `"base"` when that entry is absent.
  The name then goes to `utils.find_theme`. The short-circuit of `or` is kept:
  a résumé that is not a JSON object fails only when no override is given.
  `Options.resume` is assigned before the theme lookup, so a failing lookup
  leaves the résumé set and the theme as it was.
- **`validate`**. The command exits with status 1 when the schema does not
  parse, when the validator raises, or when the validator's result is truthy
  in Python's sense. It exits 0 when the result is falsy. It tests the result
  for truthiness, not for a non-empty list.
- **`export` flag resolution**. The tri-state `--pdf/--no-pdf` and
  `--html/--no-html` flags are resolved into a choice of formats.
  `ResolveFlags` mirrors the if/elif chain. Its contract is a closed-form
  rule: an explicit flag is obeyed, and an unset flag exports its format
  unless the other format was explicitly requested.
- **`export` dispatch**. `Export` returns the calls it makes, in order:
  `mkdir`, then the HTML exporter, then the PDF exporter with the selected
  engine. Python stops at the first call that raises, and the model does too.

Calls into code outside `cli.py` are parameters of the model:

- the parsed résumé, as an `Option<Json>` (`None` when reading or parsing fails);
- `utils.find_theme`, as `Json -> Option<ThemeDir>` (`None` when it raises);
- `utils.validate`, as `(Json, Json) -> Option<Json>` (`None` when it raises);
- whether each outside call raises, as `Action -> bool`.

A small disk model (`Effects.Perform`) gives those calls their effect on the
output directory, as far as the repository's tests observe it.
`mkdir(parents=True, exist_ok=True)` creates the directory and its ancestors.
The HTML exporter writes `index.html` and the PDF exporter writes `index.pdf`
into the output directory.

Files:

- `values.dfy`: `Optional`, JSON values, Python truthiness, `dict.get`.
- `effects.dfy`: the call trace, running calls until one raises, and the disk.
- `cli.dfy`: `Options`, `main`, `validate`, `export` and one whole invocation.
- `cli_properties.dfy`: the properties.

Three facts about `cli.py` shape the model:

- A missing or unparsable résumé makes the callback raise, which gives exit
  status 1. `cli.py` keeps no "not loaded" marker.
- `validate` tests the validator's result for truthiness.
- A résumé `"theme"` entry that is the empty string is passed on to
  `find_theme` unchanged. It does not fall back to `"base"`.

## Model

| member | source | states |
|---|---|---|
| `Cli.ThemeName` | resume_pycli/cli.py:40 | A non-empty override is the name. With no override, a dictionary résumé gives its `"theme"` entry, or `"base"` when the entry is absent. A non-dictionary résumé makes `.get` raise. |
| `Cli.Options.constructor` | resume_pycli/cli.py:20-25 | Before the callback runs, neither class attribute is assigned. |
| `Cli.Options.Callback` | resume_pycli/cli.py:28-40 | An unreadable résumé raises and changes nothing. Otherwise `resume` becomes the document. The theme becomes `find_theme`'s result for the chosen name, or is left unchanged when choosing or finding the name raises. The callback completes exactly when all three steps succeed, and then both attributes are assigned. |
| `Cli.ValidateOutcome` | resume_pycli/cli.py:59-63 | The command completes exactly when the schema parses, the validator returns, and its result is falsy. A truthy result raises `Exit(1)`. The exit status is 0 on completion and 1 otherwise, including when the schema does not parse or the validator raises. |
| `Cli.ResolveFlags` | resume_pycli/cli.py:120-133 | HTML is exported iff `--html` is given true, or is unset and `--pdf` is not given true. PDF is decided the same way with the flags swapped. |
| `Cli.ExportPlan` | resume_pycli/cli.py:119-139 | The calls start with making the output directory. The HTML export is among them iff HTML was chosen, and the PDF export with the given engine iff PDF was chosen. |
| `Cli.Export` | resume_pycli/cli.py:97-139 | The calls made are the export plan for the resolved flags, up to the first call that raises. The command completes iff no call raised. Otherwise it ends with the failure of its last call. |
| `Cli.Invoke` | resume_pycli/cli.py:28-40 | `Options` afterwards: `resume` is the parsed document, or unchanged when the résumé is unreadable. `theme` is `find_theme`'s result when the callback completes, and unchanged otherwise. If the callback fails (missing résumé, non-dictionary résumé without override, theme not found), no command runs and the exit status is 1. Otherwise `validate` exits per `ValidateOutcome`, and `export` makes the planned calls for the callback's résumé and theme and exits 0 iff none raised. |
| `Effects.CallsMade` | resume_pycli/cli.py:119-139 | The calls made are a prefix of the plan. No call before the last one raises. Either the whole plan ran or the last call made raised. |
| `Effects.CallsMadeWithoutFailure` | resume_pycli/cli.py:119-139 | When no planned call raises, every planned call is made. |
| `Effects.CallsMadeStopsAtFailure` | resume_pycli/cli.py:119-139 | When some planned call raises, the calls made end with a call that raised. |
| `Effects.Ancestors` | resume_pycli/cli.py:119 | `mkdir(parents=True)` creates the path and every one of its ancestors, and nothing else. |
| `Effects.Perform` | resume_pycli/cli.py:119-139 | A call never removes anything. A file exists afterwards iff it existed before or this call wrote it. |
| `Effects.PerformAllIdempotent` | resume_pycli/cli.py:119 | Running the same calls again leaves the disk unchanged (`exist_ok=True`: a second `mkdir` does not fail). |
| `CliProperties.SingleFlagTable` | tests/test_resume_pycli.py:53-106 | No flag exports both formats. `--no-pdf` exports only HTML, `--no-html` only PDF, `--pdf` only PDF and `--html` only HTML. |
| `CliProperties.BothFlagsGiven` | resume_pycli/cli.py:120-126 | With both flags given, no defaulting branch fires. Each flag is obeyed, so `--no-pdf --no-html` exports nothing. |
| `CliProperties.FlagsSymmetric` | resume_pycli/cli.py:120-133 | The chain treats the two flags differently, yet swapping the flags swaps the chosen formats. |
| `CliProperties.NothingExportedOnlyWhenBothOff` | resume_pycli/cli.py:120-133 | Neither format is exported iff both flags are explicitly false. |
| `CliProperties.OneFlagOneFormat` | resume_pycli/cli.py:120-133 | With exactly one flag given, exactly one format is exported. |
| `CliProperties.ExportPlanOrder` | resume_pycli/cli.py:119-139 | The directory is made once and first. HTML comes before PDF. Both exporters get the same résumé, theme and output directory. The PDF exporter gets the selected engine unchanged. |
| `CliProperties.PlainExportPlan` | resume_pycli/cli.py:98-139 | With every option at its default, `export` creates `public`, then exports HTML into it, then PDF with the Playwright engine. |
| `CliProperties.ExportDirsReady` | resume_pycli/cli.py:119-139 | Whatever the flags and failures, every exporter that is called finds its output directory already created. |
| `CliProperties.ExportWritesChosenFiles` | tests/test_resume_pycli.py:53-106 | Start with neither file present and let no call raise. Afterwards `index.html` exists iff HTML was chosen, `index.pdf` exists iff PDF was chosen, and the output directory exists. |
| `CliProperties.ExportRerunIdempotent` | resume_pycli/cli.py:119-139 | Exporting twice with the same options leaves the same directories and files as exporting once. |
| `CliProperties.MkdirFailureExportsNothing` | resume_pycli/cli.py:119 | If creating the output directory raises, no exporter is called. |
| `CliProperties.HtmlFailureSkipsPdf` | resume_pycli/cli.py:127-139 | If the HTML export raises, the PDF export is not attempted (there is no fallback). |
| `CliProperties.ValidateErrorList` | resume_pycli/cli.py:60-63 | A validator returning a list of errors gives exit status 0 iff the list is empty. |
| `CliProperties.OverrideIgnoresDocument` | resume_pycli/cli.py:40 | A non-empty `--theme` is the name for every résumé, including one that is not a dictionary. |
| `CliProperties.DocumentThemeUsedAsIs` | resume_pycli/cli.py:40 | Without an override, an empty `"theme"` entry in the résumé is used as it is, not replaced by `"base"`. |

## Left out

- Option parsing, help text, `typer.echo` of the validation errors, `typer.launch`, and the `version` command. These are framework plumbing and console output. The résumé path default `resume.json` is not modelled, because files arrive already parsed. The defaults for the output directory (`public`) and the engine (`playwright`) are the constants `Effects.DefaultOutput` and `Effects.DefaultBackend`.
- The schema option's `exists=True` check (a usage error, exit status 2) belongs to option parsing. Only a schema that fails to parse is modelled.
- `serve`: a blocking pass-through to the preview server, with an optional browser launch.
- `cli.py` defines no `init` command.
- Reading and parsing files. The résumé and the schema arrive already parsed, or as `None` when reading or parsing raised. JSON numbers are integers, so the truthiness of floats is not modelled.
- `utils.find_theme`, `utils.validate`, `html.export` and `pdf.export` are not part of this model. They appear as parameters and as calls in the trace. Whether a call raises depends only on the call, not on what is on disk.
- `Effects.Perform`: the disk model records only the directories `mkdir` creates and the two files the exporters write. The copied static assets, the copied profile image and the contents of the files are not modelled.

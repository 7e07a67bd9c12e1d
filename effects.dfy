/** The calls the `export` command makes into code outside the command layer
    (creating the output directory, the HTML exporter, the PDF exporter), the
    order in which they are attempted, and what they leave on disk. */
module Effects {
  import opened Values

  /** A filesystem path as its components, relative to the working directory;
      `[]` is the working directory itself. */
  type Path = seq<string>

  /** The directory `utils.find_theme` resolves a theme name to. */
  type ThemeDir = Path

  /** The PDF engines selectable with `--pdf-backend`. */
  datatype Backend = Playwright | Weasyprint

  const DefaultBackend: Backend := Playwright
  const DefaultOutput: Path := ["public"]

  /** One call out of the command layer. */
  datatype Action =
    | MakeDir(path: Path)
    | ExportHtml(resume: Json, theme: ThemeDir, output: Path)
    | ExportPdf(resume: Json, theme: ThemeDir, output: Path, engine: Backend)

  /** Python runs calls in order and stops at the first one that raises: the
      calls made are the planned ones up to and including the first that
      raises, or all of them when none raises. */
  function CallsMade(plan: seq<Action>, raises: Action -> bool): (made: seq<Action>)
    ensures made <= plan
    ensures forall i :: 0 <= i < |made| - 1 ==> !raises(made[i])
    ensures made == plan || (made != [] && raises(made[|made| - 1]))
  {
    if plan == [] then []
    else if raises(plan[0]) then [plan[0]]
    else [plan[0]] + CallsMade(plan[1..], raises)
  }

  /** True when some call of `calls` raises. */
  predicate AnyRaises(calls: seq<Action>, raises: Action -> bool)
  {
    exists i :: 0 <= i < |calls| && raises(calls[i])
  }

  /** The directories and files present on disk. */
  datatype Disk = Disk(dirs: set<Path>, files: set<Path>)

  /** The directories `Path.mkdir(parents=True)` creates: the path and every
      ancestor of it. */
  function Ancestors(p: Path): (r: set<Path>)
    ensures p != [] ==> p in r
    ensures forall k :: 1 <= k <= |p| ==> p[..k] in r
    ensures [] !in r
    ensures forall q :: q in r ==> q <= p
  {
    assert p != [] ==> p[..|p|] == p;
    set k | 1 <= k <= |p| :: p[..k]
  }

  /** The file a call writes, if any: the HTML exporter writes `index.html`
      and the PDF exporter `index.pdf` into the output directory. */
  function Writes(a: Action): Option<Path>
  {
    match a
    case MakeDir(_) => None
    case ExportHtml(_, _, output) => Some(output + ["index.html"])
    case ExportPdf(_, _, output, _) => Some(output + ["index.pdf"])
  }

  /** The disk after one successful call. `mkdir(parents=True, exist_ok=True)`
      adds the directory and its ancestors and is harmless when they exist. */
  function Perform(d: Disk, a: Action): (e: Disk)
    ensures d.dirs <= e.dirs && d.files <= e.files
    ensures forall f :: f in e.files <==> f in d.files || Writes(a) == Some(f)
  {
    match a
    case MakeDir(p) => d.(dirs := d.dirs + Ancestors(p))
    case _ => d.(files := d.files + {Writes(a).value})
  }

  /** The disk after a sequence of successful calls. */
  function PerformAll(d: Disk, calls: seq<Action>): Disk
    decreases |calls|
  {
    if calls == [] then d else PerformAll(Perform(d, calls[0]), calls[1..])
  }

  /** A call finds what it needs on disk: an exporter's output directory exists. */
  predicate ReadyFor(d: Disk, a: Action)
  {
    match a
    case MakeDir(_) => true
    case ExportHtml(_, _, output) => output == [] || output in d.dirs
    case ExportPdf(_, _, output, _) => output == [] || output in d.dirs
  }

  /** Every call of `calls`, run in order from `d`, finds its output directory. */
  predicate DirsReady(d: Disk, calls: seq<Action>)
    decreases |calls|
  {
    calls == [] || (ReadyFor(d, calls[0]) && DirsReady(Perform(d, calls[0]), calls[1..]))
  }

  /** When no planned call raises, every planned call is made. */
  lemma CallsMadeWithoutFailure(plan: seq<Action>, raises: Action -> bool)
    requires !AnyRaises(plan, raises)
    ensures CallsMade(plan, raises) == plan
  {
  }

  /** When some planned call raises, the calls made stop at the first such call. */
  lemma CallsMadeStopsAtFailure(plan: seq<Action>, raises: Action -> bool)
    requires AnyRaises(plan, raises)
    ensures var made := CallsMade(plan, raises);
      made != [] && raises(made[|made| - 1])
  {
  }

  /** Running calls one after another is running their concatenation. */
  lemma {:induction false} PerformAllAppend(d: Disk, a: seq<Action>, b: seq<Action>)
    ensures PerformAll(d, a + b) == PerformAll(PerformAll(d, a), b)
    decreases |a|
  {
    if a == [] {
      assert a + b == b;
    } else {
      assert (a + b)[0] == a[0] && (a + b)[1..] == a[1..] + b;
      PerformAllAppend(Perform(d, a[0]), a[1..], b);
    }
  }

  /** Calls never remove a directory or a file. */
  lemma {:induction false} PerformAllGrows(d: Disk, calls: seq<Action>)
    ensures d.dirs <= PerformAll(d, calls).dirs
    ensures d.files <= PerformAll(d, calls).files
    decreases |calls|
  {
    if calls != [] {
      PerformAllGrows(Perform(d, calls[0]), calls[1..]);
    }
  }

  /** A file exists after the calls exactly when it existed before or one of
      the calls wrote it. */
  lemma {:induction false} FilesAfter(d: Disk, calls: seq<Action>, f: Path)
    ensures f in PerformAll(d, calls).files <==>
      f in d.files || exists i :: 0 <= i < |calls| && Writes(calls[i]) == Some(f)
    decreases |calls|
  {
    if calls != [] {
      FilesAfter(Perform(d, calls[0]), calls[1..], f);
      if exists i :: 0 <= i < |calls| - 1 && Writes(calls[1..][i]) == Some(f) {
        var i :| 0 <= i < |calls| - 1 && Writes(calls[1..][i]) == Some(f);
        assert Writes(calls[i + 1]) == Some(f);
      }
      if exists i :: 0 <= i < |calls| && Writes(calls[i]) == Some(f) {
        var i :| 0 <= i < |calls| && Writes(calls[i]) == Some(f);
        if i > 0 {
          assert Writes(calls[1..][i - 1]) == Some(f);
        }
      }
    }
  }

  /** A prefix of calls that all find their directories also does. */
  lemma {:induction false} DirsReadyPrefix(d: Disk, calls: seq<Action>, prefix: seq<Action>)
    requires DirsReady(d, calls)
    requires prefix <= calls
    ensures DirsReady(d, prefix)
    decreases |prefix|
  {
    if prefix != [] {
      assert prefix[1..] <= calls[1..];
      DirsReadyPrefix(Perform(d, calls[0]), calls[1..], prefix[1..]);
    }
  }

  /** The empty disk. */
  const Empty: Disk := Disk({}, {})

  /** A call adds the same directories and files whatever is already there. */
  lemma PerformAdds(d: Disk, a: Action)
    ensures Perform(d, a) == Disk(d.dirs + Perform(Empty, a).dirs, d.files + Perform(Empty, a).files)
  {
  }

  /** Running calls adds to the disk exactly what running them on an empty
      disk creates. */
  lemma {:induction false} PerformAllAdds(d: Disk, calls: seq<Action>)
    ensures PerformAll(d, calls) ==
      Disk(d.dirs + PerformAll(Empty, calls).dirs, d.files + PerformAll(Empty, calls).files)
    decreases |calls|
  {
    if calls != [] {
      var e := Perform(Empty, calls[0]);
      PerformAdds(d, calls[0]);
      PerformAllAdds(Perform(d, calls[0]), calls[1..]);
      PerformAllAdds(e, calls[1..]);
    }
  }

  /** Running the same calls a second time changes nothing on disk. */
  lemma PerformAllIdempotent(d: Disk, calls: seq<Action>)
    ensures PerformAll(PerformAll(d, calls), calls) == PerformAll(d, calls)
  {
    PerformAllAdds(d, calls);
    PerformAllAdds(PerformAll(d, calls), calls);
  }
}

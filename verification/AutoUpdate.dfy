/** Automatic updates: the decision of `Check`, and one run of
    runAutomaticUpdate as a step over the saved policy. */
module AutoUpdate {
  import opened Common
  import opened Versions
  import opened VersionOrder
  import opened VersionText

  const HOUR: int := 3_600_000_000_000

  /** `lastCheckedAt` is None when the saved text is not a timestamp. */
  datatype Policy = Policy(enabled: bool, intervalHours: int, lastCheckedAt: Option<int>, lastInstalled: string)

  const DEFAULT_POLICY := Policy(false, 24, None, "")

  /** The policy file: absent, not a policy of this version, or a policy. */
  datatype PolicyFile = Missing | Damaged | Saved(policy: Policy)

  /** LoadPolicy: a default when there is no file, an error for a damaged one or
      for an interval of less than an hour. */
  function Load(file: PolicyFile): Option<Policy> {
    match file
    case Missing => Some(DEFAULT_POLICY)
    case Damaged => None
    case Saved(policy) => if policy.intervalHours < 1 then None else Some(policy)
  }

  /** What one run finds outside: clock, release tag (None when the request
      fails), executable path, installation, and whether the save succeeds. */
  datatype Run = Run(current: string, now: int, tag: Option<string>, pathOk: bool, installOk: bool, saveOk: bool)

  datatype Status = Status(latest: string, available: bool)

  datatype CheckError = NoRelease | BadVersion(error: VersionError)

  /** A 64-bit duration: products wrap around, differences saturate. */
  function Wrapped(n: int): int {
    (n + 0x8000_0000_0000_0000) % 0x1_0000_0000_0000_0000 - 0x8000_0000_0000_0000
  }

  function Clamped(n: int): int {
    if n < MIN_INT then MIN_INT else if n > MAX_INT then MAX_INT else n
  }

  predicate Due(policy: Policy, now: int) {
    && policy.enabled
    && (|| policy.lastCheckedAt == None
        || Clamped(now - policy.lastCheckedAt.value) >= Wrapped(policy.intervalHours * HOUR))
  }

  predicate EndsInDev(s: string) {
    |s| >= 4 && s[|s| - 4..] == "-dev"
  }

  function Check(current: string, tag: Option<string>): Result<Status, CheckError> {
    if tag == None || tag.value == "" then Err(NoRelease)
    else
      var latest := TrimV(tag.value);
      match Parse(latest)
      case Err(e) => Err(BadVersion(e))
      case Ok(_) =>
        if current == "" || EndsInDev(current) then Ok(Status(latest, true))
        else match CompareVersions(latest, TrimV(current))
          case Err(e) => Err(BadVersion(e))
          case Ok(order) => Ok(Status(latest, order > 0))
  }

  /** The version a release is compared with: the last one installed, if any. */
  function Reference(policy: Policy, run: Run): string {
    if policy.lastInstalled != "" then policy.lastInstalled else run.current
  }

  /** The version this run installs, if it installs one. */
  function Installed(file: PolicyFile, run: Run): Option<string> {
    match Load(file)
    case None => None
    case Some(policy) =>
      var status := Check(Reference(policy, run), run.tag);
      if Due(policy, run.now) && status.Ok? && status.value.available && run.pathOk && run.installOk
      then Some(status.value.latest) else None
  }

  /** The policy file after the run. */
  function After(file: PolicyFile, run: Run): PolicyFile {
    var policy := Load(file);
    if policy.None? || !Due(policy.value, run.now) || !run.saveOk then file
    else
      var installed := Installed(file, run);
      Saved(policy.value.(lastCheckedAt := Some(run.now),
                          lastInstalled := if installed.Some? then installed.value else policy.value.lastInstalled))
  }

  class UpdateFile {
    var file: PolicyFile

    constructor (file: PolicyFile)
      ensures this.file == file
    {
      this.file := file;
    }

    /** runAutomaticUpdate: load, decide, install, then save whatever happened. */
    method RunAutomaticUpdate(run: Run) returns (installed: Option<string>)
      modifies this
      ensures installed == Installed(old(file), run)
      ensures file == After(old(file), run)
    {
      installed := None;
      var loaded := Load(file);
      if loaded.None? || !Due(loaded.value, run.now) { return; }
      var policy := loaded.value;
      var comparison := run.current;
      if policy.lastInstalled != "" {
        comparison := policy.lastInstalled;
      }
      var status := Check(comparison, run.tag);
      policy := policy.(lastCheckedAt := Some(run.now));
      if status.Ok? && status.value.available {
        if run.pathOk && run.installOk {
          policy := policy.(lastInstalled := status.value.latest);
          installed := Some(status.value.latest);
        }
      }
      if run.saveOk {
        file := Saved(policy);
      }
    }
  }

  // ---------------------------------------------------------- chains of runs

  /** A run of the updater, or a user who enables, disables or reschedules it. */
  datatype Event = Ran(run: Run) | Configured(enabled: bool, intervalHours: int, saveOk: bool)

  function Next(file: PolicyFile, event: Event): PolicyFile {
    match event
    case Ran(run) => After(file, run)
    case Configured(enabled, hours, saveOk) =>
      if Load(file).None? || !saveOk || (enabled && hours < 1) then file
      else if enabled then Saved(Load(file).value.(enabled := true, intervalHours := hours))
      else Saved(Load(file).value.(enabled := false))
  }

  /** The file holds an installed version that is not a development one. */
  ghost predicate OnRecord(file: PolicyFile) {
    && Load(file).Some?
    && Load(file).value.lastInstalled != ""
    && Parse(Load(file).value.lastInstalled).Ok?
    && !EndsInDev(Load(file).value.lastInstalled)
  }

  function FirstInstall(file: PolicyFile, event: Event): Option<string> {
    if event.Ran? then Installed(file, event.run) else None
  }

  /** The versions installed along a sequence of events, in order. */
  function Installs(file: PolicyFile, events: seq<Event>): seq<string>
    decreases |events|
  {
    if events == [] then []
    else
      var first := FirstInstall(file, events[0]);
      (if first.Some? then [first.value] else []) + Installs(Next(file, events[0]), events[1..])
  }

  /** Every run's save succeeds, and no release is a development version. */
  ghost predicate Regular(events: seq<Event>) {
    forall i :: 0 <= i < |events| && events[i].Ran? ==>
      events[i].run.saveOk && (events[i].run.tag.Some? ==> !EndsInDev(TrimV(events[i].run.tag.value)))
  }

  ghost predicate Newer(a: string, b: string) {
    Parse(a).Ok? && Parse(b).Ok? && CompareVersions(a, b).value > 0
  }

  lemma TrimmedParsesTheSame(text: string)
    requires Parse(text).Ok?
    ensures Parse(TrimV(text)) == Parse(text)
  {
    FirstCharacter(text);
    if text != "" && text[0] == 'v' {
      assert text == "v" + TrimV(text);
      PrefixAndBuildAreIgnored(TrimV(text), "");
    }
  }

  /** Over a recorded version that is not a development one, only newer versions install. */
  lemma InstalledIsNewer(file: PolicyFile, run: Run)
    requires OnRecord(file) && Installed(file, run).Some?
    ensures Newer(Installed(file, run).value, Load(file).value.lastInstalled)
  {
    TrimmedParsesTheSame(Load(file).value.lastInstalled);
  }

  lemma NewerIsTransitive(a: string, b: string, c: string)
    requires Newer(a, b) && Newer(b, c)
    ensures Newer(a, c)
  {
    CompareIsTotalPreorder(Parse(a).value, Parse(b).value, Parse(c).value);
  }

  lemma EmptyDoesNotParse()
    ensures Parse("").Err?
  {
    assert IndexOf("", '-') == 0 && Split("", '.') == [""];
  }

  /** A regular run puts what it installs on record, and nothing else changes it. */
  lemma InstallIsRecorded(file: PolicyFile, events: seq<Event>)
    requires Regular(events) && events != []
    ensures var first, next := FirstInstall(file, events[0]), Next(file, events[0]);
            if first.Some? then OnRecord(next) && Load(next).value.lastInstalled == first.value
            else OnRecord(file) ==> OnRecord(next) && Load(next).value.lastInstalled == Load(file).value.lastInstalled
  {
    if events[0].Ran? {
      assert events[0].run.saveOk;
      if Installed(file, events[0].run).Some? {
        InstallGoesOnRecord(file, events[0].run);
      } else {
        RunWithoutInstall(file, events[0].run);
      }
    } else {
      ConfiguringKeepsRecord(file, events[0]);
    }
  }

  lemma RunWithoutInstall(file: PolicyFile, run: Run)
    requires Installed(file, run).None?
    ensures Load(file).Some? ==>
              Load(After(file, run)).Some?
              && Load(After(file, run)).value.lastInstalled == Load(file).value.lastInstalled
  {
  }

  lemma ConfiguringKeepsRecord(file: PolicyFile, event: Event)
    requires event.Configured?
    ensures Load(file).Some? ==>
              Load(Next(file, event)).Some?
              && Load(Next(file, event)).value.lastInstalled == Load(file).value.lastInstalled
  {
  }

  lemma InstallGoesOnRecord(file: PolicyFile, run: Run)
    requires Installed(file, run).Some? && run.saveOk && !EndsInDev(TrimV(run.tag.value))
    ensures OnRecord(After(file, run)) && Load(After(file, run)).value.lastInstalled == Installed(file, run).value
  {
    EmptyDoesNotParse();
  }

  /** All later installs are newer than the one on record. */
  lemma {:induction false} InstallsAreNewer(file: PolicyFile, events: seq<Event>)
    requires Regular(events) && OnRecord(file)
    ensures forall i :: 0 <= i < |Installs(file, events)| ==>
              Newer(Installs(file, events)[i], Load(file).value.lastInstalled)
    decreases |events|
  {
    if events != [] {
      var first, next, rest := FirstInstall(file, events[0]), Next(file, events[0]), events[1..];
      RegularTail(events);
      InstallIsRecorded(file, events);
      InstallsAreNewer(next, rest);
      if first.Some? {
        var recorded := Load(file).value.lastInstalled;
        InstalledIsNewer(file, events[0].run);
        forall i | 0 <= i < |Installs(next, rest)| ensures Newer(Installs(next, rest)[i], recorded) {
          NewerIsTransitive(Installs(next, rest)[i], first.value, recorded);
        }
      }
    }
  }

  lemma RegularTail(events: seq<Event>)
    requires Regular(events) && events != []
    ensures Regular(events[1..])
  {
    forall i | 0 <= i < |events[1..]| && events[1..][i].Ran?
      ensures events[1..][i].run.saveOk
      ensures events[1..][i].run.tag.Some? ==> !EndsInDev(TrimV(events[1..][i].run.tag.value))
    {
      assert events[1..][i] == events[i + 1];
    }
  }

  /** The versions installed over any sequence of runs strictly increase, so
      none is installed twice, when saves succeed and no release is a
      development version. */
  lemma {:induction false} InstallsStrictlyIncrease(file: PolicyFile, events: seq<Event>)
    requires Regular(events)
    ensures forall i, j :: 0 <= i < j < |Installs(file, events)| ==>
              Newer(Installs(file, events)[j], Installs(file, events)[i])
    decreases |events|
  {
    if events != [] {
      var first, next, rest := FirstInstall(file, events[0]), Next(file, events[0]), events[1..];
      RegularTail(events);
      InstallIsRecorded(file, events);
      InstallsStrictlyIncrease(next, rest);
      if first.Some? { InstallsAreNewer(next, rest); }
    }
  }

  /** A recorded release is not found again; a development version always is. */
  lemma FoundAgainIff(recorded: string, tag: Option<string>)
    requires recorded != "" && Parse(recorded).Ok? && tag.Some? && tag.value != "" && TrimV(tag.value) == recorded
    ensures Check(recorded, tag) == Ok(Status(recorded, EndsInDev(recorded)))
  {
    TrimmedParsesTheSame(recorded);
    CompareIsTotalPreorder(Parse(recorded).value, Parse(recorded).value, Parse(recorded).value);
  }

  /** What is installed is a release that parses. */
  lemma InstalledParses(file: PolicyFile, run: Run)
    requires Installed(file, run).Some?
    ensures run.tag.Some? && run.tag.value != "" && TrimV(run.tag.value) == Installed(file, run).value
    ensures Parse(Installed(file, run).value).Ok? && Installed(file, run).value != ""
  {
    EmptyDoesNotParse();
  }

  /** An unsaved run leaves everything as it was. */
  lemma UnsavedInstallsAgain(file: PolicyFile, run: Run, later: Run)
    requires Installed(file, run).Some? && !run.saveOk && later.current == run.current && later.tag == run.tag
    requires later.pathOk && later.installOk && Due(Load(file).value, later.now)
    ensures After(file, run) == file && Installed(file, later) == Installed(file, run)
  {
  }

  /** A saved run puts the release it installs on record. */
  lemma SavedInstall(file: PolicyFile, run: Run)
    requires Installed(file, run).Some? && run.saveOk
    ensures Load(After(file, run)).Some?
            && Load(After(file, run)).value.lastInstalled == Installed(file, run).value
  {
  }

  lemma InstalledFromRecord(file: PolicyFile, later: Run)
    requires Load(file).Some? && Load(file).value.lastInstalled != "" && Due(Load(file).value, later.now)
    requires later.pathOk && later.installOk
    ensures var status := Check(Load(file).value.lastInstalled, later.tag);
            Installed(file, later)
            == if status.Ok? && status.value.available then Some(status.value.latest) else None
  {
  }

  /** The same release is installed a second time exactly when the first run
      could not save its policy, or the release is a development version. */
  lemma ReinstallsIffUnsavedOrDev(file: PolicyFile, run: Run, later: Run)
    requires later.current == run.current && later.tag == run.tag && later.pathOk && later.installOk
    ensures var first := Installed(file, run);
            first.Some? && Due(Load(After(file, run)).value, later.now) ==>
              (Installed(After(file, run), later) == first <==> !run.saveOk || EndsInDev(first.value))
  {
    var first := Installed(file, run);
    if first.Some? && Due(Load(After(file, run)).value, later.now) {
      if !run.saveOk {
        UnsavedInstallsAgain(file, run, later);
      } else {
        InstalledParses(file, run);
        SavedInstall(file, run);
        InstalledFromRecord(After(file, run), later);
        FoundAgainIff(first.value, run.tag);
      }
    }
  }

  // ------------------------------------------------------- the running version

  /** A run at a time when the policy is due, with everything at hand for the release. */
  function DueRun(policy: Policy, current: string, tag: string): Run {
    var now := if policy.lastCheckedAt.Some? then policy.lastCheckedAt.value - MIN_INT else 0;
    Run(current, now, Some(tag), true, true, true)
  }

  lemma DueRunIsDue(policy: Policy, current: string, tag: string)
    requires policy.enabled
    ensures Due(policy, DueRun(policy, current, tag).now)
  {
  }

  lemma NewerIrreflexive(a: string)
    requires Parse(a).Ok?
    ensures !Newer(a, a) && !Newer(TrimV(a), a)
  {
    TrimmedParsesTheSame(a);
    CompareIsTotalPreorder(Parse(a).value, Parse(a).value, Parse(a).value);
  }

  /** Nothing is installed that would be older than what is running: the file
      cannot be loaded or is switched off, or it names no installed version and so
      the running one counts, or it names one that is neither a development version
      nor older than the running one. */
  ghost predicate CountsRunning(file: PolicyFile, current: string) {
    match Load(file)
    case None => true
    case Some(policy) =>
      || !policy.enabled
      || policy.lastInstalled == ""
      || (!EndsInDev(policy.lastInstalled) && !Newer(current, TrimV(policy.lastInstalled)))
  }

  /** A release that is found to be newer is newer than the version it is compared with. */
  lemma FoundIsNewer(reference: string, tag: Option<string>)
    requires Parse(reference).Ok? && !EndsInDev(reference)
    requires Check(reference, tag).Ok? && Check(reference, tag).value.available
    ensures Newer(Check(reference, tag).value.latest, reference)
  {
    EmptyDoesNotParse();
    TrimmedParsesTheSame(reference);
  }

  /** A release that is newer, or is compared with a development version, is found. */
  lemma NewerIsFound(reference: string, tag: string)
    requires Parse(tag).Ok? && (EndsInDev(reference) || Newer(tag, TrimV(reference)))
    ensures Check(reference, Some(tag)) == Ok(Status(TrimV(tag), true))
  {
    EmptyDoesNotParse();
    TrimmedParsesTheSame(tag);
  }

  lemma NewerThanNotOlder(a: string, b: string, c: string)
    requires Newer(a, b) && !Newer(c, b) && Parse(c).Ok?
    ensures Newer(a, c)
  {
    NotOlderStep(Parse(a).value, Parse(b).value, Parse(c).value);
  }

  lemma NotOlderStep(a: Version, b: Version, c: Version)
    requires Compare(a, b) > 0 && Compare(c, b) <= 0
    ensures Compare(a, c) > 0
  {
    CompareIsTotalPreorder(a, c, b);
    CompareIsTotalPreorder(c, b, a);
  }

  lemma InstallBeatsRunning(file: PolicyFile, run: Run)
    requires Parse(run.current).Ok? && !EndsInDev(run.current)
    requires CountsRunning(file, run.current) && Installed(file, run).Some?
    ensures Newer(Installed(file, run).value, run.current)
  {
    var policy := Load(file).value;
    var reference := Reference(policy, run);
    assert Check(reference, run.tag).Ok? && Check(reference, run.tag).value.available;
    if policy.lastInstalled == "" {
      FoundIsNewer(reference, run.tag);
    } else {
      OverRecorded(policy.lastInstalled, run.tag, run.current);
    }
  }

  lemma OverRecorded(recorded: string, tag: Option<string>, current: string)
    requires recorded != "" && !EndsInDev(recorded) && Parse(current).Ok? && !Newer(current, TrimV(recorded))
    requires Check(recorded, tag).Ok? && Check(recorded, tag).value.available
    ensures Newer(Check(recorded, tag).value.latest, current)
  {
    NewerThanNotOlder(Check(recorded, tag).value.latest, TrimV(recorded), current);
  }

  lemma RunningIsInstalledAgain(file: PolicyFile, current: string)
    requires Parse(current).Ok? && !EndsInDev(current) && !CountsRunning(file, current)
    ensures var run := DueRun(Load(file).value, current, current);
            Installed(file, run) == Some(TrimV(current))
  {
    var policy := Load(file).value;
    DueRunIsDue(policy, current, current);
    NewerIsFound(policy.lastInstalled, current);
  }

  /** An automatic install is newer than the running version, whatever release is
      found and whenever the run takes place, exactly when the policy counts the
      running version. When it does not, as after a manual install of a version
      newer than the recorded one, even the running release is installed again. */
  lemma InstallsBeatRunningIff(file: PolicyFile, current: string)
    requires Parse(current).Ok? && !EndsInDev(current)
    ensures CountsRunning(file, current)
            <==> forall run: Run :: run.current == current && Installed(file, run).Some? ==>
                   Newer(Installed(file, run).value, current)
  {
    if CountsRunning(file, current) {
      forall run: Run | run.current == current && Installed(file, run).Some?
        ensures Newer(Installed(file, run).value, current)
      {
        InstallBeatsRunning(file, run);
      }
    } else {
      RunningIsInstalledAgain(file, current);
      NewerIrreflexive(current);
    }
  }
}

/** What one automatic update does, said of the times, the release and the saved policy. */
module UpdateMeaning {
  import opened Common
  import opened Versions
  import opened AutoUpdate

  const NANOSECONDS_PER_HOUR: int := 60 * 60 * 1_000_000_000

  /** A release of this tag is one to install over the version `reference`. */
  predicate Offers(reference: string, tag: Option<string>) {
    && tag.Some? && tag.value != "" && Parse(TrimV(tag.value)).Ok?
    && (|| reference == "" || EndsInDev(reference)
        || (Parse(TrimV(reference)).Ok?
            && Compare(Parse(TrimV(tag.value)).value, Parse(TrimV(reference)).value) > 0))
  }

  /** The file holds a policy that is switched on and has an interval of an hour or more. */
  predicate IsOn(file: PolicyFile) {
    file.Saved? && file.policy.enabled && file.policy.intervalHours >= 1
  }

  /** The interval since the last check has not passed yet. */
  predicate TooSoon(policy: Policy, now: int) {
    policy.lastCheckedAt.Some? && now - policy.lastCheckedAt.value < policy.intervalHours * NANOSECONDS_PER_HOUR
  }

  predicate Idle(file: PolicyFile, run: Run) {
    Installed(file, run) == None && After(file, run) == file
  }

  lemma WrappedFits(hours: int)
    requires 1 <= hours <= 2_562_047
    ensures Wrapped(hours * HOUR) == hours * NANOSECONDS_PER_HOUR <= MAX_INT
  {
  }

  lemma DueUnlessTooSoon(policy: Policy, now: int)
    requires policy.enabled && 1 <= policy.intervalHours <= 2_562_047
    ensures Due(policy, now) <==> !TooSoon(policy, now)
  {
    WrappedFits(policy.intervalHours);
  }

  lemma CheckMeans(reference: string, tag: Option<string>)
    ensures var status := Check(reference, tag);
            && (status.Ok? && status.value.available <==> Offers(reference, tag))
            && (Offers(reference, tag) ==> status == Ok(Status(TrimV(tag.value), true)))
  {
  }

  /** What one run does, for intervals that fit in a duration. Without a policy that is
      on, or before the interval has passed, nothing is installed and the file stays as
      it is. Otherwise it installs the release, without its leading `v`, exactly when
      that is to be had and newer than the recorded version, or than the running one
      when none is recorded; and it saves, if it can, the time and what it installed. */
  lemma RunMeans(file: PolicyFile, run: Run)
    requires IsOn(file) ==> file.policy.intervalHours <= 2_562_047
    ensures if !IsOn(file) || TooSoon(file.policy, run.now) then Idle(file, run)
            else
              var policy := file.policy;
              var reference := if policy.lastInstalled == "" then run.current else policy.lastInstalled;
              && Installed(file, run)
                 == (if Offers(reference, run.tag) && run.pathOk && run.installOk then Some(TrimV(run.tag.value))
                     else None)
              && After(file, run)
                 == if !run.saveOk then file
                    else Saved(Policy(true, policy.intervalHours, Some(run.now),
                                      if Installed(file, run).Some? then Installed(file, run).value
                                      else policy.lastInstalled))
  {
    if IsOn(file) {
      DueUnlessTooSoon(file.policy, run.now);
      CheckMeans(if file.policy.lastInstalled == "" then run.current else file.policy.lastInstalled, run.tag);
    }
  }

  /** All these runs are made less than the interval after time `last`. */
  ghost predicate AllTooSoon(policy: Policy, last: int, events: seq<Event>) {
    forall i :: 0 <= i < |events| ==>
      events[i].Ran? && events[i].run.now - last < policy.intervalHours * NANOSECONDS_PER_HOUR
  }

  function FileAfter(file: PolicyFile, events: seq<Event>): PolicyFile
    decreases |events|
  {
    if events == [] then file else FileAfter(Next(file, events[0]), events[1..])
  }

  lemma {:induction false} QuietFrom(file: PolicyFile, events: seq<Event>)
    requires IsOn(file) && file.policy.intervalHours <= 2_562_047 && file.policy.lastCheckedAt.Some?
    requires AllTooSoon(file.policy, file.policy.lastCheckedAt.value, events)
    ensures Installs(file, events) == [] && FileAfter(file, events) == file
    decreases |events|
  {
    if events != [] {
      RunMeans(file, events[0].run);
      QuietFrom(file, events[1..]);
    }
  }

  /** After a run that checked and saved, whatever runs follow before the interval has
      passed install nothing and leave the file as that run left it. */
  lemma QuietUntilInterval(file: PolicyFile, run: Run, more: seq<Event>)
    requires IsOn(file) && file.policy.intervalHours <= 2_562_047
    requires !TooSoon(file.policy, run.now) && run.saveOk && AllTooSoon(file.policy, run.now, more)
    ensures Installs(After(file, run), more) == []
    ensures FileAfter(After(file, run), more) == After(file, run)
  {
    RunMeans(file, run);
    QuietFrom(After(file, run), more);
  }

  /** A run that comes when as many hours of 64-bit nanoseconds have passed as can be. */
  function LatestRun(last: int): Run {
    Run("", last + MAX_INT, None, true, true, true)
  }

  /** No run is made before the interval has passed, exactly when the interval fits in
      a duration: with more than 2562047 hours the product wraps around. */
  lemma IntervalIsKeptIff(policy: Policy)
    requires policy.enabled && policy.intervalHours >= 1 && policy.lastCheckedAt.Some?
    ensures (forall run: Run :: TooSoon(policy, run.now) ==> Idle(Saved(policy), run))
            <==> policy.intervalHours <= 2_562_047
  {
    if policy.intervalHours <= 2_562_047 {
      forall run: Run | TooSoon(policy, run.now) ensures Idle(Saved(policy), run) {
        RunMeans(Saved(policy), run);
      }
    } else {
      var run := LatestRun(policy.lastCheckedAt.value);
      assert TooSoon(policy, run.now) && Due(policy, run.now);
      assert After(Saved(policy), run) != Saved(policy);
    }
  }

  /** Switching updates on sets the interval, off keeps it; neither touches what was
      checked and installed. Only an interval of less than an hour is refused. */
  lemma ConfiguringMeans(file: PolicyFile, enabled: bool, hours: int, saveOk: bool)
    ensures var next := Next(file, Configured(enabled, hours, saveOk));
            match file
            case Damaged => next == file
            case Missing =>
              next == if !saveOk || (enabled && hours < 1) then file
                      else Saved(Policy(enabled, if enabled then hours else 24, None, ""))
            case Saved(policy) =>
              next == if policy.intervalHours < 1 || !saveOk || (enabled && hours < 1) then file
                      else Saved(Policy(enabled, if enabled then hours else policy.intervalHours,
                                        policy.lastCheckedAt, policy.lastInstalled))
  {
  }
}

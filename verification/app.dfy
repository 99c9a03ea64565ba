/**
 * `HuaweiCloudExporter` from app.py: building the collectors from the
 * account configuration, and one pass of the collection loop with its
 * self-monitoring metrics and the sleep that follows it.
 */
module App {
  import opened Wrappers
  import opened Text
  import opened PyValue
  import opened BaseCollector
  import opened Metrics

  const CollectorUp := "exporter_collector_up"
  const ScrapeDuration := "exporter_collector_scrape_duration_seconds"
  const ScrapeErrors := "exporter_scrape_errors_total"

  /** The `error_type` labels of the error counter. */
  const ImportError := "import_error"
  const UnexpectedError := "unexpected_error"
  const CollectionError := "collection_error"

  /** The sleep after a pass without collectors, and after a pass whose body raised. */
  const DefaultSleep := 60.0

  /**
   * The modules `importlib` finds as `collectors.<name>_metrics`; each
   * defines the class `<NAME>Collector`.
   */
  const CollectorModules: set<string> := {"domain", "listcosts", "listfreeresourceinfos", "listpayperusecustomerresources",
                                          "liststoredvaluecards", "listcertificates", "showcustomeraccountbalances"}

  // ---------------------------------------------------------------- configuration and collectors

  /** One entry of an account's `modules` mapping, in file order. */
  datatype ModuleEntry = ModuleEntry(name: string, config: Value)

  /** One entry of `huawei_cloud_accounts`: its `name`, the whole account dict, and its modules in order. */
  datatype AccountEntry = AccountEntry(name: string, config: map<string, Value>, modules: seq<ModuleEntry>)

  /** What the loop needs of a built collector: its class name, account name and interval. */
  datatype Collector = Collector(className: string, name: string, interval: real)

  /** The outcome of `import_module`, `getattr` and the class call. */
  datatype Construction = Built(collector: Collector) | ImportFailed | Raised(error: Exc)

  /**
   * A module that is not one of the collector modules cannot be
   * imported; the collector classes' own constructors catch everything
   * after the base constructor, so only `BaseCollector.__init__` can raise.
   */
  function Construct(moduleName: string, accountName: string, account: map<string, Value>, moduleConfig: map<string, Value>): (r: Construction)
    ensures r.ImportFailed? <==> moduleName !in CollectorModules
    ensures r.Raised? ==> NewBase(accountName, account, moduleConfig) == Err(r.error)
    ensures r.Built? ==>
              && NewBase(accountName, account, moduleConfig).Ok?
              && r.collector.interval == NewBase(accountName, account, moduleConfig).value.collectionInterval
              && Labels(r.collector) == [moduleName, accountName]
  {
    if moduleName !in CollectorModules then ImportFailed
    else match NewBase(accountName, account, moduleConfig)
      case Err(e) => Raised(e)
      case Ok(b) =>
        BuiltLabels(moduleName, accountName, b.collectionInterval);
        Built(Collector(Upper(moduleName) + "Collector", accountName, b.collectionInterval))
  }

  /** `except (ImportError, AttributeError)` catches an `AttributeError` from the constructor too. */
  function ErrorType(e: Exc): (r: string)
    ensures r == ImportError <==> e == AttributeError
    ensures r != ImportError ==> r == UnexpectedError
  {
    if e == AttributeError then ImportError else UnexpectedError
  }

  function UpSeries(moduleName: string, account: string): Series {
    Series(CollectorUp, [moduleName, account])
  }

  function ErrorSeries(moduleName: string, account: string, errorType: string): Series {
    Series(ScrapeErrors, [moduleName, account, errorType])
  }

  // ---------------------------------------------------------------- _setup_collectors, as a value

  /** The collectors appended, the metric writes, and whether setup went on (`false`: it raised). */
  datatype Setup = Setup(added: seq<Collector>, ops: seq<Op>, ok: bool)

  const NoSetup := Setup([], [], true)

  /** `a`, then `b` unless `a` raised. */
  function Followed(a: Setup, b: Setup): Setup {
    if a.ok then Setup(a.added + b.added, a.ops + b.ops, b.ok) else a
  }

  /** Steps in order, stopping at the first that raises. */
  function Fold<T>(xs: seq<T>, step: T -> Setup): Setup
    decreases |xs|
  {
    if xs == [] then NoSetup else Followed(Fold(xs[..|xs| - 1], step), step(xs[|xs| - 1]))
  }

  /**
   * One module entry: `module_config.get('enabled', False)` raises outside
   * the `try` unless the config is a dict; a falsy flag skips the module;
   * otherwise a built collector is appended and marked up, and a failure
   * is counted.
   */
  function ModuleSetup(account: AccountEntry, m: ModuleEntry): (s: Setup)
    ensures s.ok <==> m.config.Dict?
    ensures |s.added| <= 1 && |s.ops| <= 1
    ensures s.added != [] ==>
              s.ops == [SetGauge(UpSeries(m.name, account.name), 1.0)] && Labels(s.added[0]) == [m.name, account.name]
  {
    if !m.config.Dict? then Setup([], [], false)
    else if !Truthy(Get(m.config.fields, "enabled", Bool(false))) then NoSetup
    else match Construct(m.name, account.name, account.config, m.config.fields)
      case Built(c) => Setup([c], [SetGauge(UpSeries(m.name, account.name), 1.0)], true)
      case ImportFailed => Setup([], [Inc(ErrorSeries(m.name, account.name, ImportError))], true)
      case Raised(e) => Setup([], [Inc(ErrorSeries(m.name, account.name, ErrorType(e)))], true)
  }

  function ModuleStep(account: AccountEntry): ModuleEntry -> Setup {
    m => ModuleSetup(account, m)
  }

  function AccountSetup(account: AccountEntry): Setup {
    Fold(account.modules, ModuleStep(account))
  }

  /** `_setup_collectors`: every account, and in each every module, in order. */
  function SetupAll(accounts: seq<AccountEntry>): Setup {
    Fold(accounts, AccountSetup)
  }

  lemma FollowedAssoc(a: Setup, b: Setup, c: Setup)
    ensures Followed(Followed(a, b), c) == Followed(a, Followed(b, c))
  {
    if a.ok && b.ok {
      assert a.added + b.added + c.added == a.added + (b.added + c.added);
      assert a.ops + b.ops + c.ops == a.ops + (b.ops + c.ops);
    }
  }

  lemma FoldStep<T>(xs: seq<T>, i: nat, step: T -> Setup)
    requires i < |xs|
    ensures Fold(xs[..i + 1], step) == Followed(Fold(xs[..i], step), step(xs[i]))
  {
    assert xs[..i + 1][..i] == xs[..i];
  }

  /** The loop step of a fold: the appended collectors and the writes of one more step. */
  lemma FoldAdvance<T>(xs: seq<T>, i: nat, step: T -> Setup, before: seq<Collector>, st: Store)
    requires i < |xs| && Fold(xs[..i], step).ok
    ensures Fold(xs[..i + 1], step).ok == step(xs[i]).ok
    ensures before + Fold(xs[..i + 1], step).added == before + Fold(xs[..i], step).added + step(xs[i]).added
    ensures Apply(st, Fold(xs[..i + 1], step).ops) == Apply(Apply(st, Fold(xs[..i], step).ops), step(xs[i]).ops)
  {
    FoldStep(xs, i, step);
    ApplyConcat(st, Fold(xs[..i], step).ops, step(xs[i]).ops);
  }

  /** Once a step raised, the later ones do not run. */
  lemma {:induction false} FoldStops<T>(xs: seq<T>, i: nat, step: T -> Setup)
    requires i <= |xs| && !Fold(xs[..i], step).ok
    ensures Fold(xs, step) == Fold(xs[..i], step)
    decreases |xs| - i
  {
    if i < |xs| {
      FoldStep(xs, i, step);
      FoldStops(xs, i + 1, step);
    } else {
      assert xs[..i] == xs;
    }
  }

  /** When no step raises, the fold does not raise. */
  lemma {:induction false} FoldOk<T>(xs: seq<T>, step: T -> Setup)
    requires forall i :: 0 <= i < |xs| ==> step(xs[i]).ok
    ensures Fold(xs, step).ok
    decreases |xs|
  {
    if xs != [] {
      FoldOk(xs[..|xs| - 1], step);
    }
  }

  // ---------------------------------------------------------------- one pass of _collect_metrics, as a value

  /** `collector.__class__.__name__.replace('Collector', '').lower()`. */
  function ModuleLabel(className: string): (r: string)
    ensures NoUpper(r)
  {
    Lower(Replace(className, "Collector", ""))
  }

  function Labels(c: Collector): seq<string> {
    [ModuleLabel(c.className), c.name]
  }

  /**
   * One collector in the pass: the duration is observed whether or not
   * `collect()` raised (`raised`); up is 1 after a return and 0 after a
   * raise, which also counts a `collection_error`.
   */
  function CollectOps(c: Collector, raised: bool): (ops: seq<Op>)
    ensures LastGauge(ops, Series(CollectorUp, Labels(c))) == Some(if raised then 0.0 else 1.0)
    ensures |ops| == if raised then 3 else 2
  {
    var observe := Observe(Series(ScrapeDuration, Labels(c)));
    var up := SetGauge(Series(CollectorUp, Labels(c)), if raised then 0.0 else 1.0);
    var rest := if raised then [Inc(Series(ScrapeErrors, Labels(c) + [CollectionError]))] else [];
    LastGaugeOf([observe], up.series, up.value, rest);
    [observe] + [up] + rest
  }

  /** The self-monitoring writes of a pass: each collector in list order. */
  function CycleOps(cs: seq<Collector>, raised: seq<bool>): seq<Op>
    requires |raised| == |cs|
    decreases |cs|
  {
    if cs == [] then [] else CycleOps(cs[..|cs| - 1], raised[..|cs| - 1]) + CollectOps(cs[|cs| - 1], raised[|cs| - 1])
  }

  /** `min(...)` over a non-empty sequence. */
  function Min(xs: seq<real>): (r: real)
    requires xs != []
    ensures r in xs && forall x :: x in xs ==> r <= x
    decreases |xs|
  {
    if |xs| == 1 then xs[0]
    else
      var m := Min(xs[..|xs| - 1]);
      assert forall x :: x in xs ==> x in xs[..|xs| - 1] || x == xs[|xs| - 1];
      if xs[|xs| - 1] < m then xs[|xs| - 1] else m
  }

  function Intervals(cs: seq<Collector>): (r: seq<real>)
    ensures |r| == |cs| && forall i :: 0 <= i < |cs| ==> r[i] == cs[i].interval
  {
    if cs == [] then [] else Intervals(cs[..|cs| - 1]) + [cs[|cs| - 1].interval]
  }

  /**
   * The sleep a pass asks for: the smallest interval less the elapsed
   * time, never negative; 60 without collectors.
   */
  function SleepTime(cs: seq<Collector>, elapsed: real): (r: real)
    ensures cs == [] ==> r == DefaultSleep
    ensures r >= 0.0
    ensures cs != [] && r > 0.0 ==> r == Min(Intervals(cs)) - elapsed
    ensures cs != [] && Min(Intervals(cs)) - elapsed <= 0.0 ==> r == 0.0
  {
    if cs == [] then DefaultSleep
    else
      var left := Min(Intervals(cs)) - elapsed;
      if left >= 0.0 then left else 0.0
  }

  /**
   * The sleep that follows a pass: `time.sleep` raising (`sleepRaises`:
   * a length it cannot represent) escapes to the loop's handler, which
   * sleeps 60 instead.
   */
  function PassSleep(cs: seq<Collector>, elapsed: real, sleepRaises: real -> bool): (r: real)
    ensures r >= 0.0
    ensures r == DefaultSleep || r == SleepTime(cs, elapsed)
    ensures cs != [] && !sleepRaises(SleepTime(cs, elapsed)) ==> r == SleepTime(cs, elapsed)
  {
    if cs != [] && sleepRaises(SleepTime(cs, elapsed)) then DefaultSleep else SleepTime(cs, elapsed)
  }

  // ---------------------------------------------------------------- the exporter

  class Exporter {
    var collectors: seq<Collector>

    /** `__init__`: no collectors yet (the configuration is read by the caller). */
    constructor()
      ensures collectors == []
    {
      collectors := [];
    }

    /** One module entry of `_setup_collectors`. */
    method SetupModule(reg: Registry, account: AccountEntry, m: ModuleEntry) returns (ok: bool)
      modifies this, reg
      ensures collectors == old(collectors) + ModuleSetup(account, m).added
      ensures reg.State() == Apply(old(reg.State()), ModuleSetup(account, m).ops)
      ensures ok == ModuleSetup(account, m).ok
    {
      if !m.config.Dict? {
        return false;
      }
      ok := true;
      if !Truthy(Get(m.config.fields, "enabled", Bool(false))) {
        return;
      }
      var built := Construct(m.name, account.name, account.config, m.config.fields);
      match built {
        case Built(c) =>
          collectors := collectors + [c];
          reg.Set(UpSeries(m.name, account.name), 1.0);
        case ImportFailed =>
          reg.Inc(ErrorSeries(m.name, account.name, ImportError));
        case Raised(e) =>
          reg.Inc(ErrorSeries(m.name, account.name, ErrorType(e)));
      }
    }

    /** The modules of one account in `_setup_collectors`, in order, stopping at the first that raises. */
    method SetupAccount(reg: Registry, account: AccountEntry) returns (ok: bool)
      modifies this, reg
      ensures collectors == old(collectors) + AccountSetup(account).added
      ensures reg.State() == Apply(old(reg.State()), AccountSetup(account).ops)
      ensures ok == AccountSetup(account).ok
    {
      var mods := account.modules;
      var step := ModuleStep(account);
      assert mods[..0] == [] && old(collectors) + [] == old(collectors);
      var j := 0;
      while j < |mods|
        invariant 0 <= j <= |mods|
        invariant Fold(mods[..j], step).ok
        invariant collectors == old(collectors) + Fold(mods[..j], step).added
        invariant reg.State() == Apply(old(reg.State()), Fold(mods[..j], step).ops)
      {
        ok := SetupModule(reg, account, mods[j]);
        FoldAdvance(mods, j, step, old(collectors), old(reg.State()));
        if !ok {
          FoldStops(mods, j + 1, step);
          return;
        }
        j := j + 1;
      }
      assert mods[..j] == mods;
      ok := true;
    }

    /** `_setup_collectors`; `ok` is false when it raised (a module config that is not a dict). */
    method SetupCollectors(reg: Registry, accounts: seq<AccountEntry>) returns (ok: bool)
      modifies this, reg
      ensures collectors == old(collectors) + SetupAll(accounts).added
      ensures reg.State() == Apply(old(reg.State()), SetupAll(accounts).ops)
      ensures ok == SetupAll(accounts).ok
    {
      assert accounts[..0] == [] && old(collectors) + [] == old(collectors);
      var i := 0;
      while i < |accounts|
        invariant 0 <= i <= |accounts|
        invariant SetupAll(accounts[..i]).ok
        invariant collectors == old(collectors) + SetupAll(accounts[..i]).added
        invariant reg.State() == Apply(old(reg.State()), SetupAll(accounts[..i]).ops)
      {
        ok := SetupAccount(reg, accounts[i]);
        FoldAdvance(accounts, i, AccountSetup, old(collectors), old(reg.State()));
        if !ok {
          FoldStops(accounts, i + 1, AccountSetup);
          return;
        }
        i := i + 1;
      }
      assert accounts[..i] == accounts;
      ok := true;
    }

    /** One collector of the pass: the observation, then the up gauge, then on a raise the error count. */
    method RecordCollect(reg: Registry, c: Collector, raised: bool)
      modifies reg
      ensures reg.State() == Apply(old(reg.State()), CollectOps(c, raised))
    {
      var observe := Observe(Series(ScrapeDuration, Labels(c)));
      var up := SetGauge(Series(CollectorUp, Labels(c)), if raised then 0.0 else 1.0);
      ghost var start := reg.State();
      reg.Observe(Series(ScrapeDuration, Labels(c)));
      assert [observe][..0] == [];
      assert reg.State() == Apply(start, [observe]);
      reg.Set(Series(CollectorUp, Labels(c)), if raised then 0.0 else 1.0);
      assert [observe, up][..1] == [observe];
      assert reg.State() == Apply(start, [observe, up]);
      if raised {
        var count := Inc(Series(ScrapeErrors, Labels(c) + [CollectionError]));
        reg.Inc(Series(ScrapeErrors, Labels(c) + [CollectionError]));
        assert [observe, up, count][..2] == [observe, up];
        assert CollectOps(c, raised) == [observe, up, count];
      } else {
        assert CollectOps(c, raised) == [observe, up];
      }
    }

    /**
     * One pass of `_collect_metrics`: `collect()` on every collector in
     * order (`raised[i]`: the i-th raised), then the sleep that follows.
     * `reg` receives the pass's self-monitoring writes; what each
     * `collect()` writes itself is its own collector's `Collect`.
     */
    method CollectOnce(reg: Registry, raised: seq<bool>, elapsed: real, sleepRaises: real -> bool) returns (sleep: real)
      requires |raised| == |collectors|
      modifies reg
      ensures reg.State() == Apply(old(reg.State()), CycleOps(collectors, raised))
      ensures sleep == PassSleep(collectors, elapsed, sleepRaises)
    {
      var i := 0;
      while i < |collectors|
        invariant 0 <= i <= |collectors|
        invariant reg.State() == Apply(old(reg.State()), CycleOps(collectors[..i], raised[..i]))
      {
        ghost var before := CycleOps(collectors[..i], raised[..i]);
        RecordCollect(reg, collectors[i], raised[i]);
        assert collectors[..i + 1][..i] == collectors[..i] && raised[..i + 1][..i] == raised[..i];
        ApplyConcat(old(reg.State()), before, CollectOps(collectors[i], raised[i]));
        i := i + 1;
      }
      assert collectors[..i] == collectors && raised[..i] == raised;
      if collectors == [] {
        return DefaultSleep;
      }
      var minInterval := Min(Intervals(collectors));
      sleep := if minInterval - elapsed >= 0.0 then minInterval - elapsed else 0.0;
      if sleepRaises(sleep) {
        sleep := DefaultSleep;
      }
    }
  }

  // ---------------------------------------------------------------- setup properties

  /** A module whose `enabled` is missing or falsy is skipped: no collector, no write. */
  lemma DisabledSkipped(account: AccountEntry, m: ModuleEntry)
    requires m.config.Dict? && !Truthy(Get(m.config.fields, "enabled", Bool(false)))
    ensures ModuleSetup(account, m) == NoSetup
  {
  }

  /** A successful construction appends exactly that collector and sets its up gauge to 1. */
  lemma BuiltAppendsOne(account: AccountEntry, m: ModuleEntry)
    requires m.config.Dict? && Truthy(Get(m.config.fields, "enabled", Bool(false)))
    requires Construct(m.name, account.name, account.config, m.config.fields).Built?
    ensures var s := ModuleSetup(account, m);
            && s.added == [Construct(m.name, account.name, account.config, m.config.fields).collector]
            && s.ops == [SetGauge(UpSeries(m.name, account.name), 1.0)]
            && s.ok
  {
  }

  /**
   * A failed construction appends nothing and increments one error
   * counter once: `import_error` for an unknown module or an
   * `AttributeError`, `unexpected_error` otherwise; setup goes on.
   */
  lemma FailureCounted(account: AccountEntry, m: ModuleEntry)
    requires m.config.Dict? && Truthy(Get(m.config.fields, "enabled", Bool(false)))
    requires !Construct(m.name, account.name, account.config, m.config.fields).Built?
    ensures var s := ModuleSetup(account, m);
            var k := Construct(m.name, account.name, account.config, m.config.fields);
            && s.added == [] && s.ok
            && s.ops == [Inc(ErrorSeries(m.name, account.name, if k.ImportFailed? || k.error == AttributeError then ImportError else UnexpectedError))]
  {
  }

  /** An unknown module name is an import error. */
  lemma UnknownModuleImportError(account: AccountEntry, m: ModuleEntry)
    requires m.config.Dict? && Truthy(Get(m.config.fields, "enabled", Bool(false)))
    requires m.name !in CollectorModules
    ensures ModuleSetup(account, m).ops == [Inc(ErrorSeries(m.name, account.name, ImportError))]
  {
  }

  /**
   * A credential that has to fall back to a missing `auth` section raises
   * `KeyError` in the base constructor: counted as `unexpected_error`;
   * a non-dict `auth` raises `AttributeError`: counted as `import_error`.
   */
  lemma AuthFailuresCounted(account: AccountEntry, m: ModuleEntry)
    requires m.config.Dict? && Truthy(Get(m.config.fields, "enabled", Bool(false)))
    requires m.name in CollectorModules && "ak" !in m.config.fields
    ensures "auth" !in account.config ==>
              ModuleSetup(account, m).ops == [Inc(ErrorSeries(m.name, account.name, UnexpectedError))]
    ensures "auth" in account.config && !account.config["auth"].Dict? ==>
              ModuleSetup(account, m).ops == [Inc(ErrorSeries(m.name, account.name, ImportError))]
  {
    MissingAuthRaises(account.name, account.config, m.config.fields);
  }

  /** Construction failures never make setup raise: with every module config a dict, setup runs to its end. */
  lemma SetupNeverRaises(accounts: seq<AccountEntry>)
    requires forall i, j :: 0 <= i < |accounts| && 0 <= j < |accounts[i].modules| ==> accounts[i].modules[j].config.Dict?
    ensures SetupAll(accounts).ok
  {
    forall i | 0 <= i < |accounts| ensures AccountSetup(accounts[i]).ok {
      var a := accounts[i];
      FoldOk(a.modules, m => ModuleSetup(a, m));
    }
    FoldOk(accounts, AccountSetup);
  }

  // ---------------------------------------------------------------- labels

  /** No lower-case letter in `s`: "Collector" first matches at the appended suffix. */
  lemma {:induction false} ReplaceSuffix(s: string)
    requires forall i :: 0 <= i < |s| ==> !IsLowerLetter(s[i])
    ensures Replace(s + "Collector", "Collector", "") == s
    decreases |s|
  {
    var t := s + "Collector";
    if s == [] {
      assert t[..9] == "Collector" && t[9..] == [];
    } else {
      assert t[1] != 'o';
      assert t[1..] == s[1..] + "Collector";
      ReplaceSuffix(s[1..]);
    }
  }

  /** No upper-case ASCII letter in `s`. */
  predicate NoUpper(s: string) {
    forall i :: 0 <= i < |s| ==> !('A' <= s[i] <= 'Z')
  }

  /** `m.upper().lower() == m` for a name without upper-case ASCII letters. */
  lemma LowerUpper(m: string)
    requires NoUpper(m)
    ensures Lower(Upper(m)) == m
    ensures forall i :: 0 <= i < |Upper(m)| ==> !IsLowerLetter(Upper(m)[i])
  {
    assert forall i :: 0 <= i < |m| ==> LowerChar(UpperChar(m[i])) == m[i];
  }

  /**
   * The module label of the loop equals the module name setup used, so
   * both write the same up series: `(m.upper() + 'Collector')
   * .replace('Collector', '').lower() == m`.
   */
  lemma ModuleLabelRoundTrip(m: string)
    requires NoUpper(m)
    ensures ModuleLabel(Upper(m) + "Collector") == m
  {
    LowerUpper(m);
    ReplaceSuffix(Upper(m));
  }

  lemma ShortNamesLower()
    ensures NoUpper("domain") && NoUpper("listcosts") && NoUpper("listcertificates")
    ensures NoUpper("listfreeresourceinfos") && NoUpper("liststoredvaluecards")
  {
  }

  lemma LongNamesLower()
    ensures NoUpper("listpayperusecustomerresources") && NoUpper("showcustomeraccountbalances")
  {
  }

  /** The collector modules are named in lower case. */
  lemma NamesLower(moduleName: string)
    requires moduleName in CollectorModules
    ensures NoUpper(moduleName)
  {
    ShortNamesLower();
    LongNamesLower();
  }

  /**
   * Every collector module's name is lower case, so a collector built
   * for it reports under the labels setup used for it.
   */
  lemma BuiltLabels(moduleName: string, accountName: string, interval: real)
    requires moduleName in CollectorModules
    ensures Labels(Collector(Upper(moduleName) + "Collector", accountName, interval)) == [moduleName, accountName]
  {
    NamesLower(moduleName);
    ModuleLabelRoundTrip(moduleName);
  }

  // ---------------------------------------------------------------- pass properties

  /** The failures of a pass among collectors with the given labels. */
  function Failures(cs: seq<Collector>, raised: seq<bool>, labels: seq<string>): nat
    requires |raised| == |cs|
    decreases |cs|
  {
    if cs == [] then 0
    else Failures(cs[..|cs| - 1], raised[..|cs| - 1], labels) + (if raised[|cs| - 1] && Labels(cs[|cs| - 1]) == labels then 1 else 0)
  }

  /** The collectors of a pass with the given labels. */
  function Calls(cs: seq<Collector>, labels: seq<string>): nat
    decreases |cs|
  {
    if cs == [] then 0 else Calls(cs[..|cs| - 1], labels) + (if Labels(cs[|cs| - 1]) == labels then 1 else 0)
  }

  lemma {:induction false} IncsConcat(a: seq<Op>, b: seq<Op>, s: Series)
    ensures Incs(a + b, s) == Incs(a, s) + Incs(b, s)
    decreases |b|
  {
    if b != [] {
      assert (a + b)[..|a + b| - 1] == a + b[..|b| - 1];
      IncsConcat(a, b[..|b| - 1], s);
    } else {
      assert a + b == a;
    }
  }

  lemma {:induction false} ObservationsConcat(a: seq<Op>, b: seq<Op>, s: Series)
    ensures Observations(a + b, s) == Observations(a, s) + Observations(b, s)
    decreases |b|
  {
    if b != [] {
      assert (a + b)[..|a + b| - 1] == a + b[..|b| - 1];
      ObservationsConcat(a, b[..|b| - 1], s);
    } else {
      assert a + b == a;
    }
  }

  /**
   * One collector's writes: one observation of its own duration series,
   * one error count on its own series when it raised, and nothing on the
   * up series of other labels.
   */
  lemma CollectCounts(c: Collector, raised: bool, s: Series)
    ensures Incs(CollectOps(c, raised), s) == if raised && s == Series(ScrapeErrors, Labels(c) + [CollectionError]) then 1 else 0
    ensures Observations(CollectOps(c, raised), s) == if s == Series(ScrapeDuration, Labels(c)) then 1 else 0
    ensures s.metric == CollectorUp && s.labels != Labels(c) ==> LastGauge(CollectOps(c, raised), s) == None
  {
    var two := [Observe(Series(ScrapeDuration, Labels(c))), SetGauge(Series(CollectorUp, Labels(c)), if raised then 0.0 else 1.0)];
    var rest := if raised then [Inc(Series(ScrapeErrors, Labels(c) + [CollectionError]))] else [];
    assert two[..1] == [two[0]] && [two[0]][..0] == [];
    if raised {
      assert rest[..0] == [];
    }
    IncsConcat(two, rest, s);
    ObservationsConcat(two, rest, s);
    LastGaugeConcat(two, rest, s);
  }

  /** The error counter of a collector series rises once per raise of a collector with those labels, and no other way. */
  lemma {:induction false} ErrorsCounted(cs: seq<Collector>, raised: seq<bool>, labels: seq<string>)
    requires |raised| == |cs|
    ensures Incs(CycleOps(cs, raised), Series(ScrapeErrors, labels + [CollectionError])) == Failures(cs, raised, labels)
    decreases |cs|
  {
    if cs != [] {
      var n := |cs| - 1;
      var s := Series(ScrapeErrors, labels + [CollectionError]);
      ErrorsCounted(cs[..n], raised[..n], labels);
      IncsConcat(CycleOps(cs[..n], raised[..n]), CollectOps(cs[n], raised[n]), s);
      CollectCounts(cs[n], raised[n], s);
      if Labels(cs[n]) + [CollectionError] == labels + [CollectionError] {
        assert Labels(cs[n]) == (Labels(cs[n]) + [CollectionError])[..2] == (labels + [CollectionError])[..2] == labels;
      }
    }
  }

  /** Every collector is timed exactly once per pass, whether or not it raised. */
  lemma {:induction false} EachObservedOnce(cs: seq<Collector>, raised: seq<bool>, labels: seq<string>)
    requires |raised| == |cs|
    ensures Observations(CycleOps(cs, raised), Series(ScrapeDuration, labels)) == Calls(cs, labels)
    decreases |cs|
  {
    if cs != [] {
      var n := |cs| - 1;
      var s := Series(ScrapeDuration, labels);
      EachObservedOnce(cs[..n], raised[..n], labels);
      ObservationsConcat(CycleOps(cs[..n], raised[..n]), CollectOps(cs[n], raised[n]), s);
      CollectCounts(cs[n], raised[n], s);
    }
  }

  /**
   * After a pass over collectors with distinct labels, each up gauge
   * holds its own collector's outcome: a raise in one does not touch the
   * others.
   */
  lemma {:induction false} UpAfterPass(cs: seq<Collector>, raised: seq<bool>, k: nat)
    requires |raised| == |cs| && k < |cs|
    requires forall i, j :: 0 <= i < j < |cs| ==> Labels(cs[i]) != Labels(cs[j])
    ensures LastGauge(CycleOps(cs, raised), Series(CollectorUp, Labels(cs[k]))) == Some(if raised[k] then 0.0 else 1.0)
    decreases |cs|
  {
    var n := |cs| - 1;
    var s := Series(CollectorUp, Labels(cs[k]));
    assert CycleOps(cs, raised) == CycleOps(cs[..n], raised[..n]) + CollectOps(cs[n], raised[n]);
    LastGaugeConcat(CycleOps(cs[..n], raised[..n]), CollectOps(cs[n], raised[n]), s);
    if k != n {
      assert s.labels != Labels(cs[n]);
      CollectCounts(cs[n], raised[n], s);
      assert cs[..n][k] == cs[k] && raised[..n][k] == raised[k];
      UpAfterPass(cs[..n], raised[..n], k);
    }
  }

  // ---------------------------------------------------------------- sleep properties

  /** The sleep is never negative and, for a non-negative elapsed time, at most the smallest interval (or 0). */
  lemma SleepBounds(cs: seq<Collector>, elapsed: real)
    requires cs != []
    ensures 0.0 <= SleepTime(cs, elapsed)
    ensures elapsed >= 0.0 ==> SleepTime(cs, elapsed) <= if Min(Intervals(cs)) >= 0.0 then Min(Intervals(cs)) else 0.0
    ensures forall i :: 0 <= i < |cs| && elapsed >= 0.0 && cs[i].interval >= 0.0 ==> SleepTime(cs, elapsed) <= cs[i].interval
  {
    forall i | 0 <= i < |cs| ensures Min(Intervals(cs)) <= cs[i].interval {
      assert Intervals(cs)[i] in Intervals(cs);
    }
  }

  /** The sleep is exactly the smallest interval less the elapsed time, when that is not negative. */
  lemma SleepIsRemainder(cs: seq<Collector>, elapsed: real)
    requires cs != [] && exists i :: 0 <= i < |cs| && cs[i].interval - elapsed >= 0.0 &&
                                    forall j :: 0 <= j < |cs| ==> cs[i].interval <= cs[j].interval
    ensures exists i :: 0 <= i < |cs| && SleepTime(cs, elapsed) == cs[i].interval - elapsed
  {
    var i :| 0 <= i < |cs| && cs[i].interval - elapsed >= 0.0 && forall j :: 0 <= j < |cs| ==> cs[i].interval <= cs[j].interval;
    var m := Min(Intervals(cs));
    var k :| 0 <= k < |cs| && Intervals(cs)[k] == m;
    assert Intervals(cs)[i] in Intervals(cs);
    assert m == cs[i].interval;
  }

  /** Intervals 30, 300 and 60 with 2 seconds elapsed: sleep 28. */
  lemma SleepExample(account: string)
    ensures SleepTime([Collector("DOMAINCollector", account, 30.0), Collector("LISTCOSTSCollector", account, 300.0),
                       Collector("LISTCERTIFICATESCollector", account, 60.0)], 2.0) == 28.0
  {
    var cs := [Collector("DOMAINCollector", account, 30.0), Collector("LISTCOSTSCollector", account, 300.0),
               Collector("LISTCERTIFICATESCollector", account, 60.0)];
    assert cs[..2][..1] == cs[..1] && cs[..1][..0] == [];
    assert Intervals(cs) == [30.0, 300.0, 60.0];
    var xs := [30.0, 300.0, 60.0];
    assert xs[..2] == [30.0, 300.0] && xs[..2][..1] == [30.0];
    assert Min(xs[..2][..1]) == 30.0;
    assert Min(xs[..2]) == 30.0;
  }

  /** Without collectors, and when sleeping raises, the pass is followed by 60 seconds. */
  lemma DefaultSleeps(cs: seq<Collector>, elapsed: real, sleepRaises: real -> bool)
    ensures cs == [] ==> PassSleep(cs, elapsed, sleepRaises) == 60.0
    ensures cs != [] && sleepRaises(SleepTime(cs, elapsed)) ==> PassSleep(cs, elapsed, sleepRaises) == 60.0
    ensures cs != [] && !sleepRaises(SleepTime(cs, elapsed)) ==> PassSleep(cs, elapsed, sleepRaises) == SleepTime(cs, elapsed)
  {
  }
}

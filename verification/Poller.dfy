/**
 The token-efficient poller: one directive at a time, transient failures retried, every attempt
 metered, and no attempt begun once a budget is reached.  Costs are exact reals here.
 */
module Poller {
  import opened Common

  /** A budget of zero or less is no limit. */
  datatype Config = Config(costBudget: real, tokenBudget: int, maxRetries: int)

  datatype Usage = Usage(cost: real, tokens: int)

  /** How one run of the executor ends; without a usage block nothing is metered. */
  datatype Outcome = Outcome(ok: bool, retriable: bool, usage: Option<Usage>)

  /** One pass of the main loop as it went: what had been spent before it, and what its attempts metered. */
  datatype Pass = Pass(before: Usage, metered: seq<Usage>)

  /** One pass of the main loop that gets past the budget check: an empty inbox, a lost claim, or a directive to execute. */
  datatype Poll = EmptyInbox | ClaimLost | Work(outcomes: nat -> Outcome)

  predicate OverBudget(cfg: Config, spent: Usage) {
    || (cfg.costBudget > 0.0 && spent.cost >= cfg.costBudget)
    || (cfg.tokenBudget > 0 && spent.tokens >= cfg.tokenBudget)
  }

  function Metered(o: Outcome): Usage {
    if o.usage.Some? then o.usage.value else Usage(0.0, 0)
  }

  function Plus(a: Usage, b: Usage): Usage {
    Usage(a.cost + b.cost, a.tokens + b.tokens)
  }

  /** The brake is on exactly when a budget that is set, that is a positive one, is used up. */
  lemma OverBudgetMeans(cfg: Config, spent: Usage)
    ensures OverBudget(cfg, spent) <==>
      || (cfg.tokenBudget > 0 && !(spent.tokens < cfg.tokenBudget))
      || (cfg.costBudget > 0.0 && !(spent.cost < cfg.costBudget))
  {
  }

  // Everything spent once the attempts of `trace` are added to `loaded`.
  ghost function Spent(loaded: Usage, trace: seq<Usage>): Usage {
    if trace == [] then loaded else Plus(Spent(loaded, Init(trace)), Last(trace))
  }

  /** Each attempt adds its own usage to the total, or nothing if it reported none. */
  lemma AttemptAdds(loaded: Usage, trace: seq<Usage>, o: Outcome)
    ensures
      var was, now := Spent(loaded, trace), Spent(loaded, trace + [Metered(o)]);
      && (o.usage.None? ==> now == was)
      && (o.usage.Some? ==>
            now.tokens == was.tokens + o.usage.value.tokens && now.cost == was.cost + o.usage.value.cost)
    ensures Spent(loaded, []) == loaded
  {
    assert Init(trace + [Metered(o)]) == trace;
  }

  ghost function MeterOf(outcomes: nat -> Outcome, n: nat): seq<Usage> {
    seq(n, i requires 0 <= i < n => Metered(outcomes(i)))
  }

  /** No attempt of `trace` began over budget. */
  ghost predicate Braked(cfg: Config, loaded: Usage, trace: seq<Usage>) {
    forall i | 0 <= i < |trace| :: !OverBudget(cfg, Spent(loaded, trace[..i]))
  }

  lemma {:induction false} SpentConcat(loaded: Usage, a: seq<Usage>, b: seq<Usage>)
    ensures Spent(loaded, a + b) == Spent(Spent(loaded, a), b)
  {
    if b == [] {
      assert a + b == a;
    } else {
      SpentConcat(loaded, a, Init(b));
      assert Init(a + b) == a + Init(b);
    }
  }

  lemma BrakedConcat(cfg: Config, loaded: Usage, a: seq<Usage>, b: seq<Usage>)
    requires Braked(cfg, loaded, a) && Braked(cfg, Spent(loaded, a), b)
    ensures Braked(cfg, loaded, a + b)
  {
    forall i | 0 <= i < |a + b| ensures !OverBudget(cfg, Spent(loaded, (a + b)[..i])) {
      if i < |a| {
        assert (a + b)[..i] == a[..i];
      } else {
        assert (a + b)[..i] == a + b[..i - |a|];
        SpentConcat(loaded, a, b[..i - |a|]);
      }
    }
  }

  /**
   The overshoot of a braked run: with a positive budget, what was spent before the last attempt
   was below it, so the excess is less than that one attempt's usage.
   */
  lemma OvershootBelowOneAttempt(cfg: Config, loaded: Usage, trace: seq<Usage>)
    requires Braked(cfg, loaded, trace) && trace != []
    ensures cfg.tokenBudget > 0 ==> Spent(loaded, trace).tokens - Last(trace).tokens < cfg.tokenBudget
    ensures cfg.costBudget > 0.0 ==> Spent(loaded, trace).cost - Last(trace).cost < cfg.costBudget
  {
    assert Init(trace) == trace[..|trace| - 1];
  }

  // What has been spent after these passes.
  ghost function SpentAfter(loaded: Usage, passes: seq<Pass>): Usage {
    if passes == [] then loaded else Spent(Last(passes).before, Last(passes).metered)
  }

  /**
   What the passes of the main loop did, one for each poll: every poll with work that finds the budget not
   reached is executed, with one attempt at least, and no other is; each pass starts where the last one ended.
   */
  ghost predicate Served(cfg: Config, loaded: Usage, polls: seq<Poll>, passes: seq<Pass>)
    decreases |passes|
  {
    && |passes| == |polls|
    && (passes != [] ==>
          var poll, pass := Last(polls), Last(passes);
          && Served(cfg, loaded, Init(polls), Init(passes))
          && pass.before == SpentAfter(loaded, Init(passes))
          && (pass.metered != [] <==> poll.Work? && !OverBudget(cfg, pass.before))
          && (pass.metered != [] ==> pass.metered == MeterOf(poll.outcomes, |pass.metered|)))
  }

  ghost function AllMetered(passes: seq<Pass>): seq<Usage> {
    if passes == [] then [] else AllMetered(Init(passes)) + Last(passes).metered
  }

  ghost function Executed(passes: seq<Pass>): nat {
    if passes == [] then 0 else Executed(Init(passes)) + (if Last(passes).metered != [] then 1 else 0)
  }

  class Poller {
    var spent: Usage
    const cfg: Config

    constructor (cfg: Config, loaded: Usage)
      ensures spent == loaded && this.cfg == cfg
    {
      spent, this.cfg := loaded, cfg;
    }

    /** One claimed directive: attempts until success, a permanent failure, the last retry or the budget. */
    method Execute(outcomes: nat -> Outcome) returns (ok: bool, attempts: nat)
      requires !OverBudget(cfg, spent)
      modifies this
      ensures 1 <= attempts <= Max(0, cfg.maxRetries) + 1
      ensures spent == Spent(old(spent), MeterOf(outcomes, attempts))
      ensures Braked(cfg, old(spent), MeterOf(outcomes, attempts))
      ensures ok == outcomes(attempts - 1).ok
      ensures forall i | 0 <= i < attempts - 1 :: !outcomes(i).ok && outcomes(i).retriable
      ensures ok || !outcomes(attempts - 1).retriable || attempts == Max(0, cfg.maxRetries) + 1 || OverBudget(cfg, spent)
    {
      var attempt := 0;
      while true
        invariant 0 <= attempt <= Max(0, cfg.maxRetries)
        invariant spent == Spent(old(spent), MeterOf(outcomes, attempt)) && !OverBudget(cfg, spent)
        invariant Braked(cfg, old(spent), MeterOf(outcomes, attempt))
        invariant forall i | 0 <= i < attempt :: !outcomes(i).ok && outcomes(i).retriable
        decreases Max(0, cfg.maxRetries) - attempt
      {
        var o := outcomes(attempt);
        ghost var before, trace := MeterOf(outcomes, attempt), MeterOf(outcomes, attempt + 1);
        assert Init(trace) == before && Last(trace) == Metered(o);
        assert Braked(cfg, old(spent), trace) by {
          assert trace[..attempt] == before;
          assert forall i | 0 <= i < attempt :: trace[..i] == before[..i];
        }
        if o.usage.Some? {
          spent := Usage(spent.cost + o.usage.value.cost, spent.tokens + o.usage.value.tokens);
        }
        if o.ok || attempt >= cfg.maxRetries || !o.retriable {
          return o.ok, attempt + 1;
        }
        if OverBudget(cfg, spent) {
          return o.ok, attempt + 1;
        }
        attempt := attempt + 1;
      }
    }

    // One pass.
    method ServeOne(poll: Poll) returns (ghost metered: seq<Usage>)
      modifies this
      ensures spent == Spent(old(spent), metered) && Braked(cfg, old(spent), metered)
      ensures metered != [] <==> poll.Work? && !OverBudget(cfg, old(spent))
      ensures metered != [] ==> metered == MeterOf(poll.outcomes, |metered|)
      ensures |metered| <= Max(0, cfg.maxRetries) + 1
    {
      metered := [];
      if !OverBudget(cfg, spent) && poll.Work? {
        var ok, attempts := Execute(poll.outcomes);
        metered := MeterOf(poll.outcomes, attempts);
      }
    }

    /**
     The main loop over any number of polls.  `passes` says what each poll came to and `trace` meters every
     attempt: the total is the loaded total plus all of them, and none began over budget.
     */
    method Serve(polls: seq<Poll>) returns (ghost trace: seq<Usage>, ghost passes: seq<Pass>)
      modifies this
      ensures Served(cfg, old(spent), polls, passes) && trace == AllMetered(passes)
      ensures spent == Spent(old(spent), trace)
      ensures Braked(cfg, old(spent), trace)
      ensures |trace| <= Executed(passes) * (Max(0, cfg.maxRetries) + 1)
      ensures cfg.tokenBudget > 0 && trace != [] ==> spent.tokens - Last(trace).tokens < cfg.tokenBudget
      ensures cfg.costBudget > 0.0 && trace != [] ==> spent.cost - Last(trace).cost < cfg.costBudget
    {
      trace, passes := [], [];
      var i := 0;
      while i < |polls|
        invariant 0 <= i <= |polls| && Served(cfg, old(spent), polls[..i], passes) && trace == AllMetered(passes)
        invariant spent == Spent(old(spent), trace) && Braked(cfg, old(spent), trace)
        invariant spent == SpentAfter(old(spent), passes)
        invariant |trace| <= Executed(passes) * (Max(0, cfg.maxRetries) + 1)
      {
        ghost var before := spent;
        ghost var more := ServeOne(polls[i]);
        SpentConcat(old(spent), trace, more);
        BrakedConcat(cfg, old(spent), trace, more);
        ServedOneMore(cfg, old(spent), polls, passes, i, Pass(before, more));
        MeteredOneMore(passes, Pass(before, more), Max(0, cfg.maxRetries) + 1);
        trace, passes := trace + more, passes + [Pass(before, more)];
        i := i + 1;
      }
      assert polls[..i] == polls;
      if trace != [] {
        OvershootBelowOneAttempt(cfg, old(spent), trace);
      }
    }
  }

  // One more pass, which starts where the last one ended.
  lemma ServedOneMore(cfg: Config, loaded: Usage, polls: seq<Poll>, passes: seq<Pass>, i: nat, pass: Pass)
    requires i < |polls| && Served(cfg, loaded, polls[..i], passes)
    requires pass.before == SpentAfter(loaded, passes)
    requires pass.metered != [] <==> polls[i].Work? && !OverBudget(cfg, pass.before)
    requires pass.metered != [] ==> pass.metered == MeterOf(polls[i].outcomes, |pass.metered|)
    ensures Served(cfg, loaded, polls[..i + 1], passes + [pass])
  {
    assert Init(polls[..i + 1]) == polls[..i] && Last(polls[..i + 1]) == polls[i];
    assert Init(passes + [pass]) == passes;
  }

  lemma MeteredOneMore(passes: seq<Pass>, pass: Pass, most: nat)
    requires |AllMetered(passes)| <= Executed(passes) * most && |pass.metered| <= most
    ensures AllMetered(passes + [pass]) == AllMetered(passes) + pass.metered
    ensures |AllMetered(passes + [pass])| <= Executed(passes + [pass]) * most
  {
    assert Init(passes + [pass]) == passes;
    OneMoreTimes(Executed(passes), most);
  }

  lemma OneMoreTimes(n: nat, m: nat)
    ensures (n + 1) * m == n * m + m
  {
  }
}

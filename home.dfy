/** The home screen (screens/HomeScreen.tsx): what it loads when it mounts,
    the recommendation card it derives from the statistics, and the quote
    that rotates on a timer. */
module Home {
  import opened Collections
  import opened Types
  import opened Analytics
  import Store

  /** The recommendation card: 'Hidratación' (the initial state), 'Sueño'
      or 'Estrés'. */
  datatype Recommendation = Hydration | Sleep | Stress

  /** Whether `Number(avgIntensity) > 5`: the mean rounded to one decimal
      exceeds 5, that is the mean is above 5.05. No recent record is "0". */
  predicate AverageAboveFive(a: Average) {
    a.Mean? && 20 * a.sum > 101 * a.count
  }

  /** The card chosen after loading: more than three free days favours
      sleep, else a high average favours stress, else the hydration default
      stays. */
  function RecommendationFor(s: Stats): (r: Recommendation)
    ensures r == Sleep <==> s.daysFree > 3
    ensures r == Stress <==> s.daysFree <= 3 && AverageAboveFive(s.avgIntensity)
    ensures r == Hydration <==> s.daysFree <= 3 && !AverageAboveFive(s.avgIntensity)
  {
    if s.daysFree > 3 then Sleep
    else if AverageAboveFive(s.avgIntensity) then Stress
    else Hydration
  }

  /** With no record in the last 30 days the stress card never shows. */
  lemma QuietMonthIsNotStress(cs: seq<Crisis>, now: int)
    requires forall i :: 0 <= i < |cs| ==> cs[i].date < Cutoff(now)
    ensures RecommendationFor(ComputeStats(cs, now)) != Stress
  {
  }

  /** Every intensity at least `k` makes the sum at least `k` per record. */
  lemma {:induction false} SumAtLeast(cs: seq<Crisis>, k: int)
    requires forall i :: 0 <= i < |cs| ==> cs[i].intensity >= k
    ensures SumIntensity(cs) >= k * |cs|
    decreases |cs|
  {
    if cs != [] {
      SumAtLeast(cs[..|cs| - 1], k);
    }
  }

  /** A month whose records all have intensity 6 or more, with the latest
      record at most three days old, shows the stress card. */
  lemma IntenseMonthIsStress(cs: seq<Crisis>, now: int)
    requires cs != [] && DaysSince(now, MaxDate(cs)) <= 3
    requires exists i :: 0 <= i < |cs| && cs[i].date >= Cutoff(now)
    requires forall i :: 0 <= i < |cs| && cs[i].date >= Cutoff(now) ==> cs[i].intensity >= 6
    ensures RecommendationFor(ComputeStats(cs, now)) == Stress
  {
    var recent := Recent(cs, now);
    forall i | 0 <= i < |recent| ensures recent[i].intensity >= 6 {
      assert recent[i] in cs;
    }
    SumAtLeast(recent, 6);
  }

  /** What the screen shows after mounting. */
  datatype HomeView =
    | RedirectToOnboarding
    | Dashboard(profile: UserProfile, stats: Stats, recent: seq<Crisis>, recommendation: Recommendation)

  /** The first three records, as `crises.slice(0, 3)` takes them. */
  function FirstThree(cs: seq<Crisis>): (r: seq<Crisis>)
    ensures |r| == if |cs| < 3 then |cs| else 3
    ensures forall i :: 0 <= i < |r| ==> r[i] == cs[i]
  {
    if |cs| < 3 then cs else cs[..3]
  }

  /** The mount effect: no profile sends the user to onboarding; otherwise
      the profile, the statistics, the first three stored records and the
      recommendation are shown. */
  method Mount(store: Store.RecordStore, now: int) returns (view: HomeView)
    requires store.Valid()
    modifies store`crisesCache, store`profileCache
    ensures store.Valid()
    ensures store.Crises() == old(store.Crises()) && store.Profile() == old(store.Profile())
    ensures view.RedirectToOnboarding? <==> old(store.Profile()).None?
    ensures view.Dashboard? ==>
      && view.profile == old(store.Profile()).value
      && view.stats == ComputeStats(old(store.Crises()), now)
      && view.recent == FirstThree(old(store.Crises()))
      && view.recommendation == RecommendationFor(view.stats)
  {
    var profile := store.GetProfile();
    if profile.None? {
      return RedirectToOnboarding;
    }
    view := LoadDashboard(store, now, profile.value);
  }

  /** The part of the mount effect after a profile was found. */
  method LoadDashboard(store: Store.RecordStore, now: int, profile: UserProfile) returns (view: HomeView)
    requires store.Valid()
    modifies store`crisesCache
    ensures store.Valid()
    ensures store.Crises() == old(store.Crises()) && store.Profile() == old(store.Profile())
    ensures view.Dashboard? && view.profile == profile
    ensures view.stats == ComputeStats(old(store.Crises()), now)
    ensures view.recent == FirstThree(old(store.Crises()))
    ensures view.recommendation == RecommendationFor(view.stats)
  {
    var s := store.GetStats(now);
    var crises := store.GetCrises();
    var recent := crises[..if |crises| < 3 then |crises| else 3];
    var recommendation := Hydration;
    if s.daysFree > 3 {
      recommendation := Sleep;
    } else if AverageAboveFive(s.avgIntensity) {
      recommendation := Stress;
    }
    assert recommendation == RecommendationFor(s);
    view := Dashboard(profile, s, recent, recommendation);
  }

  /** The store appends new records, so once three are stored a newly saved
      record is not among the three the home screen lists. */
  lemma NewRecordNotListed(cs: seq<Crisis>, c: Crisis)
    requires |cs| >= 3 && UniqueIds(cs + [c])
    ensures FirstThree(cs + [c]) == FirstThree(cs)
    ensures forall i :: 0 <= i < |FirstThree(cs + [c])| ==> FirstThree(cs + [c])[i].id != c.id
  {
    var all := cs + [c];
    forall i | 0 <= i < 3 ensures all[i].id != c.id {
      assert all[|all| - 1] == c;
    }
  }

  // ---------------------------------------------------------------------
  // The rotating quote

  const Quotes: seq<string> := [
    "Lo esencial es invisible a los ojos.",
    "Fue el tiempo que pasaste con tu rosa lo que la hizo tan importante.",
    "Es una locura odiar a todas las rosas porque una te pinchó.",
    "Caminando en línea recta no puede uno llegar muy lejos.",
    "Lo que hace hermoso al desierto es que esconde un pozo.",
    "Si vienes a las cuatro, empezaré a ser feliz desde las tres.",
    "Eres responsable de lo que has domesticado.",
    "Todas las personas mayores fueron al principio niños.",
    "Es mucho más difícil juzgarse a sí mismo que a los demás."
  ]

  /** `indexOf`: the first position of `q`, or -1. */
  function IndexOf(qs: seq<string>, q: string): (r: int)
    ensures -1 <= r < |qs|
    ensures r == -1 <==> q !in qs
    ensures r >= 0 ==> qs[r] == q && forall j :: 0 <= j < r ==> qs[j] != q
    decreases |qs|
  {
    if qs == [] then -1
    else if qs[0] == q then 0
    else
      var k := IndexOf(qs[1..], q);
      if k == -1 then -1 else k + 1
  }

  /** The `setQuote` updater: the entry after `q` in `qs`, wrapping round
      (`(indexOf + 1) % length`); the first entry when `q` is not there. */
  function NextIn(qs: seq<string>, q: string): string
    requires qs != []
  {
    qs[(IndexOf(qs, q) + 1) % |qs|]
  }

  /** The entry `n` steps after `q`. */
  function StepsAfter(qs: seq<string>, q: string, n: nat): string
    requires qs != []
    decreases n
  {
    if n == 0 then q else NextIn(qs, StepsAfter(qs, q, n - 1))
  }

  predicate Distinct(qs: seq<string>) {
    forall i, j :: 0 <= i < j < |qs| ==> qs[i] != qs[j]
  }

  /** The position after `k` in a ring of nine. */
  function Succ(k: int): int {
    if k == 8 then 0 else k + 1
  }

  /** The position `n` steps after `i` in a ring of nine. */
  function PositionAfter(i: int, n: nat): int
    decreases n
  {
    if n == 0 then i else Succ(PositionAfter(i, n - 1))
  }

  /** Walking the ring is adding modulo nine. */
  lemma {:induction false} PositionAfterIsMod(i: int, n: nat)
    requires 0 <= i < 9
    ensures PositionAfter(i, n) == (i + n) % 9
    decreases n
  {
    if n > 0 {
      PositionAfterIsMod(i, n - 1);
      ModNext(i + n - 1);
    }
  }

  /** In a list of nine entries each found at its own index (no repeats),
      `n` steps from entry `i` is the entry `n` positions further round. */
  lemma {:induction false} StepsAfterWalk(qs: seq<string>, i: int, n: nat)
    requires |qs| == 9 && 0 <= i < 9
    requires forall k {:trigger NextIn(qs, qs[k])} :: 0 <= k < 9 ==> NextIn(qs, qs[k]) == qs[Succ(k)]
    ensures 0 <= PositionAfter(i, n) < 9
    ensures StepsAfter(qs, qs[i], n) == qs[PositionAfter(i, n)]
    decreases n
  {
    if n > 0 {
      StepsAfterWalk(qs, i, n - 1);
      var k := PositionAfter(i, n - 1);
      assert NextIn(qs, qs[k]) == qs[Succ(k)];
    }
  }

  /** In a list of nine entries without repeats, each entry is followed by
      the next one round the ring. */
  lemma NextInRing(qs: seq<string>)
    requires |qs| == 9 && Distinct(qs)
    ensures forall k {:trigger NextIn(qs, qs[k])} :: 0 <= k < 9 ==> NextIn(qs, qs[k]) == qs[Succ(k)]
  {
    forall k | 0 <= k < 9 ensures NextIn(qs, qs[k]) == qs[Succ(k)] {
      IndexOfDistinct(qs, k);
      assert (k + 1) % 9 == Succ(k);
    }
  }

  lemma ModNext(a: int)
    requires a >= 0
    ensures (a % 9 + 1) % 9 == (a + 1) % 9
  {
    var q := a / 9;
    assert a == 9 * q + a % 9;
    if a % 9 == 8 {
      assert a + 1 == 9 * (q + 1);
    } else {
      assert a + 1 == 9 * q + (a % 9 + 1);
    }
  }

  lemma IndexOfDistinct(qs: seq<string>, k: int)
    requires Distinct(qs) && 0 <= k < |qs|
    ensures IndexOf(qs, qs[k]) == k
  {
  }

  /** In a ring of nine entries where each is followed by the next, `n`
      steps from entry `i` is entry `(i + n) mod 9`. */
  lemma RingCycle(qs: seq<string>, i: int, n: nat)
    requires |qs| == 9 && 0 <= i < 9
    requires forall k {:trigger NextIn(qs, qs[k])} :: 0 <= k < 9 ==> NextIn(qs, qs[k]) == qs[Succ(k)]
    ensures StepsAfter(qs, qs[i], n) == qs[(i + n) % 9]
  {
    StepsAfterWalk(qs, i, n);
    PositionAfterIsMod(i, n);
  }

  /** The nine quotes are pairwise different. */
  lemma QuotesDistinct()
    ensures Distinct(Quotes)
  {
    assert |Quotes[0]| == 36 && |Quotes[1]| == 68 && |Quotes[2]| == 59;
    assert |Quotes[3]| == 55 && |Quotes[4]| == 55 && |Quotes[5]| == 60;
    assert |Quotes[6]| == 43 && |Quotes[7]| == 53 && |Quotes[8]| == 57;
    assert Quotes[3] != Quotes[4];
  }

  /** Starting from quote `i`, `n` ticks later the screen shows quote
      `(i + n) mod 9`, so the rotation repeats every nine ticks. */
  lemma QuoteCycle(i: int, n: nat)
    requires 0 <= i < |Quotes|
    ensures StepsAfter(Quotes, Quotes[i], n) == Quotes[(i + n) % 9]
  {
    QuotesDistinct();
    NextInRing(Quotes);
    RingCycle(Quotes, i, n);
  }

  /** A quote that is not in the list moves to the first one. */
  lemma UnknownQuoteRestarts(qs: seq<string>, q: string)
    requires qs != [] && q !in qs
    ensures NextIn(qs, q) == qs[0]
  {
  }

  /** The quote card's state, advanced by the 8-second interval. */
  class QuoteCard {
    var quote: string
    var quoteKey: int

    constructor ()
      ensures quote == Quotes[0] && quoteKey == 0
    {
      quote := Quotes[0];
      quoteKey := 0;
    }

    /** One interval tick: the next quote and a new key for the fade-in. */
    method Tick()
      modifies this
      ensures quote == NextIn(Quotes, old(quote)) && quoteKey == old(quoteKey) + 1
    {
      quote := NextIn(Quotes, quote);
      quoteKey := quoteKey + 1;
    }
  }
}

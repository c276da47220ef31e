/**
 * The Corporeal Beast plugin: three special-attack counters (Dragon warhammer specials,
 * Arclight specials, Bandos godsword damage) driven by hitsplat and death events, and the
 * info boxes that show them while the player is in the beast's cave.
 */
module Corp {
  import opened JavaInt

  /** The name the game gives the boss, compared against actor names. */
  const CorporealBeast: string := "Corporeal Beast"

  /** Region id of the Corporeal Beast's cave. */
  const CorpCaveRegion: int := 11844

  datatype HitsplatType = Damage | OtherHitsplat

  /**
   * The current animation of the actor the beast is interacting with, as far as the plugin tells
   * animations apart.
   */
  datatype Animation =
    | DragonWarhammerSpecial
    | ArclightSpecial
    | BandosGodswordSpecial
    | OtherAnimation(id: int)

  /** The values of the three counters at one moment. */
  datatype Specs = Specs(dragonWarhammer: Int32, arclight: Int32, bandosGodsword: Int32)

  const InitialSpecs: Specs := Specs(0, 0, 0)

  /**
   * A hitsplat counts when it is damage on the beast while the beast is interacting with an actor
   * that has the local player's name. `opponentName` is the name of that interacting actor; who
   * dealt the hit is not looked at, and the plugin takes that actor to be the one who did.
   */
  function CountsHitsplat(kind: HitsplatType, actorName: string, opponentName: string, localPlayerName: string): (r: bool)
    ensures r <==> kind == Damage && actorName == "Corporeal Beast" && opponentName == localPlayerName
  {
    kind == Damage && actorName == CorporealBeast && opponentName == localPlayerName
  }

  /**
   * The counters after one hitsplat: at most one of them moves, chosen by the animation of the
   * actor the beast is interacting with (`opponentAnimation`).
   */
  function HitsplatEffect(s: Specs, kind: HitsplatType, amount: Int32, actorName: string,
                          opponentName: string, opponentAnimation: Animation, localPlayerName: string): (r: Specs)
    ensures !CountsHitsplat(kind, actorName, opponentName, localPlayerName) ==> r == s
    // Only the counter the animation selects can move ...
    ensures r.dragonWarhammer != s.dragonWarhammer ==> opponentAnimation == DragonWarhammerSpecial
    ensures r.arclight != s.arclight ==> opponentAnimation == ArclightSpecial
    ensures r.bandosGodsword != s.bandosGodsword ==> opponentAnimation == BandosGodswordSpecial
    // ... and on a counted hitsplat it moves by one special, or by the damage dealt.
    ensures CountsHitsplat(kind, actorName, opponentName, localPlayerName) ==>
              && (opponentAnimation == DragonWarhammerSpecial ==> r.dragonWarhammer == Wrap32(s.dragonWarhammer + 1))
              && (opponentAnimation == ArclightSpecial ==> r.arclight == Wrap32(s.arclight + 1))
              && (opponentAnimation == BandosGodswordSpecial ==> r.bandosGodsword == Wrap32(s.bandosGodsword + amount))
  {
    if !CountsHitsplat(kind, actorName, opponentName, localPlayerName) then s
    else match opponentAnimation
      case DragonWarhammerSpecial => Specs(Wrap32(s.dragonWarhammer + 1), s.arclight, s.bandosGodsword)
      case ArclightSpecial => Specs(s.dragonWarhammer, Wrap32(s.arclight + 1), s.bandosGodsword)
      case BandosGodswordSpecial => Specs(s.dragonWarhammer, s.arclight, Wrap32(s.bandosGodsword + amount))
      case OtherAnimation(_) => s
  }

  /** The player is in the beast's cave exactly when they stand in region 11844. */
  function AtCorpCave(regionId: int): (r: bool)
    ensures r <==> regionId == 11844
  {
    regionId == CorpCaveRegion
  }

  // ---------------------------------------------------------------------------
  // The counters over a run of events

  /** The events that move the counters: a hitsplat, with what the plugin reads of it, or a death. */
  datatype CorpEvent =
    | Hit(kind: HitsplatType, amount: Int32, actorName: string, opponentName: string,
          opponentAnimation: Animation, localPlayerName: string)
    | Death(deadName: string)

  /** The counters after one event: a hitsplat as `HitsplatEffect`, the beast's death zeroes them. */
  function Step(s: Specs, e: CorpEvent): Specs
  {
    match e
    case Hit(kind, amount, actorName, opponentName, animation, localPlayerName) =>
      HitsplatEffect(s, kind, amount, actorName, opponentName, animation, localPlayerName)
    case Death(name) => if name == CorporealBeast then InitialSpecs else s
  }

  /** The counters after `events`, in order, starting from `s`. */
  function Replay(s: Specs, events: seq<CorpEvent>): Specs
  {
    if events == [] then s else Step(Replay(s, events[..|events| - 1]), events[|events| - 1])
  }

  function Counter(s: Specs, c: CounterBox): Int32
  {
    match c
    case DragonWarhammerBox => s.dragonWarhammer
    case ArclightBox => s.arclight
    case BandosGodswordBox => s.bandosGodsword
  }

  predicate Resets(e: CorpEvent)
  {
    e.Death? && e.deadName == CorporealBeast
  }

  /** What one event adds to counter `c`: one per counted special of its kind, or the BGS damage. */
  function Gain(e: CorpEvent, c: CounterBox): int
  {
    if e.Hit? && CountsHitsplat(e.kind, e.actorName, e.opponentName, e.localPlayerName) then
      match c
      case DragonWarhammerBox => if e.opponentAnimation == DragonWarhammerSpecial then 1 else 0
      case ArclightBox => if e.opponentAnimation == ArclightSpecial then 1 else 0
      case BandosGodswordBox => if e.opponentAnimation == BandosGodswordSpecial then e.amount else 0
    else 0
  }

  /**
   * The exact total of counter `c` after `events`: the gains since the beast's last death, or,
   * when it has not died, since the start, added to `start`.
   */
  function Tally(start: int, events: seq<CorpEvent>, c: CounterBox): int
  {
    if events == [] then start
    else
      var e := events[|events| - 1];
      if Resets(e) then 0 else Tally(start, events[..|events| - 1], c) + Gain(e, c)
  }

  /** Each counter moves only by its own gain, or drops to zero at the beast's death. */
  lemma StepCounter(s: Specs, e: CorpEvent, c: CounterBox)
    ensures Counter(Step(s, e), c) == if Resets(e) then 0 else Wrap32(Counter(s, c) + Gain(e, c))
  {
  }

  /** One event keeps a counter equal to a running total wrapped to 32 bits. */
  lemma StepTally(s: Specs, e: CorpEvent, c: CounterBox, total: int)
    requires Counter(s, c) == Wrap32(total)
    ensures Counter(Step(s, e), c) == Wrap32(if Resets(e) then 0 else total + Gain(e, c))
  {
    StepCounter(s, e, c);
    if !Resets(e) {
      Wrap32Add(total, Gain(e, c));
    }
  }

  /** Every counter is its exact tally since the beast's last death, in Java `int` arithmetic. */
  lemma {:induction false} ReplayTally(s: Specs, events: seq<CorpEvent>, c: CounterBox)
    ensures Counter(Replay(s, events), c) == Wrap32(Tally(Counter(s, c), events, c))
    decreases |events|
  {
    if events != [] {
      var init := events[..|events| - 1];
      ReplayTally(s, init, c);
      StepTally(Replay(s, init), events[|events| - 1], c, Tally(Counter(s, c), init, c));
    }
  }

  /** The DWH and Arclight tallies count specials: at least zero and at most one per event. */
  lemma {:induction false} SpecialTallyBounds(start: int, events: seq<CorpEvent>, c: CounterBox)
    requires c != BandosGodswordBox && 0 <= start
    ensures 0 <= Tally(start, events, c) <= start + |events|
    decreases |events|
  {
    if events != [] {
      SpecialTallyBounds(start, events[..|events| - 1], c);
    }
  }

  /**
   * The DWH and Arclight counters are never negative while fewer than 2^31 events could have
   * raised them: each then equals the number of its specials since the beast's last death.
   */
  lemma SpecialCounterNotNegative(s: Specs, events: seq<CorpEvent>, c: CounterBox)
    requires c != BandosGodswordBox && 0 <= Counter(s, c) && Counter(s, c) + |events| <= MaxInt
    ensures Counter(Replay(s, events), c) == Tally(Counter(s, c), events, c)
    ensures Counter(Replay(s, events), c) >= 0
  {
    ReplayTally(s, events, c);
    SpecialTallyBounds(Counter(s, c), events, c);
  }

  /** The three special-attack counters, each a Java `int`. */
  class CorpSpecs {
    var dragonWarhammer: Int32
    var arclight: Int32
    var bandosGodsword: Int32

    // What happened since the last reset: the number of Dragon warhammer and Arclight
    // increments and the total Bandos godsword damage added.
    ghost var dragonWarhammerHits: nat
    ghost var arclightHits: nat
    ghost var bandosGodswordDamage: int

    /** Each counter is its history, wrapped to 32 bits. */
    ghost predicate Valid()
      reads this
    {
      && dragonWarhammer == Wrap32(dragonWarhammerHits)
      && arclight == Wrap32(arclightHits)
      && bandosGodsword == Wrap32(bandosGodswordDamage)
    }

    function Value(): Specs
      reads this
    {
      Specs(dragonWarhammer, arclight, bandosGodsword)
    }

    constructor ()
      ensures Valid() && Value() == InitialSpecs
      ensures dragonWarhammerHits == 0 && arclightHits == 0 && bandosGodswordDamage == 0
    {
      new;
      SetInitial();
    }

    method IncrementDragonWarhammer()
      requires Valid()
      modifies this
      ensures Valid()
      ensures Value() == old(Value()).(dragonWarhammer := Wrap32(old(dragonWarhammer) + 1))
      ensures dragonWarhammerHits == old(dragonWarhammerHits) + 1
      ensures arclightHits == old(arclightHits) && bandosGodswordDamage == old(bandosGodswordDamage)
    {
      Wrap32Add(dragonWarhammerHits, 1);
      dragonWarhammer := Wrap32(dragonWarhammer + 1);
      dragonWarhammerHits := dragonWarhammerHits + 1;
    }

    method IncrementArclight()
      requires Valid()
      modifies this
      ensures Valid()
      ensures Value() == old(Value()).(arclight := Wrap32(old(arclight) + 1))
      ensures arclightHits == old(arclightHits) + 1
      ensures dragonWarhammerHits == old(dragonWarhammerHits) && bandosGodswordDamage == old(bandosGodswordDamage)
    {
      Wrap32Add(arclightHits, 1);
      arclight := Wrap32(arclight + 1);
      arclightHits := arclightHits + 1;
    }

    method IncrementBandosGodsword(damage: Int32)
      requires Valid()
      modifies this
      ensures Valid()
      ensures Value() == old(Value()).(bandosGodsword := Wrap32(old(bandosGodsword) + damage))
      ensures bandosGodswordDamage == old(bandosGodswordDamage) + damage
      ensures dragonWarhammerHits == old(dragonWarhammerHits) && arclightHits == old(arclightHits)
    {
      Wrap32Add(bandosGodswordDamage, damage);
      bandosGodsword := Wrap32(bandosGodsword + damage);
      bandosGodswordDamage := bandosGodswordDamage + damage;
    }

    /** Zeroes all three counters, whatever they held; so doing it twice is doing it once. */
    method SetInitial()
      modifies this
      ensures Valid() && Value() == InitialSpecs
      ensures dragonWarhammerHits == 0 && arclightHits == 0 && bandosGodswordDamage == 0
    {
      dragonWarhammer := 0;
      arclight := 0;
      bandosGodsword := 0;
      dragonWarhammerHits, arclightHits, bandosGodswordDamage := 0, 0, 0;
    }

    /** Until 2^31 specials have been counted, the two special counters are exact counts and not negative. */
    lemma CountsAreExact()
      requires Valid()
      requires dragonWarhammerHits <= MaxInt && arclightHits <= MaxInt
      ensures dragonWarhammer == dragonWarhammerHits >= 0
      ensures arclight == arclightHits >= 0
    {
    }
  }

  /** The counters for which the plugin puts an info box on screen. */
  datatype CounterBox = DragonWarhammerBox | ArclightBox | BandosGodswordBox

  const AllCounters: set<CounterBox> := {DragonWarhammerBox, ArclightBox, BandosGodswordBox}

  class CorpPlugin {
    var specs: CorpSpecs
    var dragonWarhammerText: string
    var arclightText: string
    var bandosGodswordText: string
    /** This plugin's counters among the info boxes the info-box manager displays. */
    var infoBoxes: set<CounterBox>

    ghost predicate Valid()
      reads this, specs
    {
      specs.Valid() && (infoBoxes == {} || infoBoxes == AllCounters)
    }

    /** Start-up: fresh counters, each counter text the decimal form of zero, nothing displayed yet. */
    constructor StartUp()
      ensures Valid() && fresh(specs)
      ensures specs.Value() == InitialSpecs
      ensures dragonWarhammerText == "0" && arclightText == "0" && bandosGodswordText == "0"
      ensures infoBoxes == {}
    {
      var s := new CorpSpecs();
      specs := s;
      dragonWarhammerText := DecimalString(s.dragonWarhammer);
      arclightText := DecimalString(s.arclight);
      bandosGodswordText := DecimalString(s.bandosGodsword);
      infoBoxes := {};
    }

    method ShutDown()
      requires Valid()
      modifies this
      ensures Valid() && infoBoxes == {}
      ensures specs == old(specs)
      ensures dragonWarhammerText == old(dragonWarhammerText) && arclightText == old(arclightText)
      ensures bandosGodswordText == old(bandosGodswordText)
    {
      RemoveInfoBoxes();
    }

    method OnHitsplat(kind: HitsplatType, amount: Int32, actorName: string, opponentName: string,
                      opponentAnimation: Animation, localPlayerName: string)
      requires Valid()
      modifies specs
      ensures Valid()
      ensures specs.Value() ==
              Step(old(specs.Value()), Hit(kind, amount, actorName, opponentName, opponentAnimation, localPlayerName))
    {
      if kind == Damage && actorName == CorporealBeast && opponentName == localPlayerName {
        match opponentAnimation {
          case DragonWarhammerSpecial => specs.IncrementDragonWarhammer();
          case ArclightSpecial => specs.IncrementArclight();
          case BandosGodswordSpecial => specs.IncrementBandosGodsword(amount);
          case OtherAnimation(_) =>
        }
      }
    }

    /** The beast's death starts the counters over; any other death is ignored. */
    method OnDeath(actorName: string)
      requires Valid()
      modifies specs
      ensures Valid()
      ensures specs.Value() == if actorName == CorporealBeast then InitialSpecs else old(specs.Value())
      ensures specs.Value() == Step(old(specs.Value()), Death(actorName))
    {
      if actorName == CorporealBeast {
        specs.SetInitial();
      }
    }

    /** Each tick the boxes follow the player's region; in the cave every text shows its counter. */
    method OnGameTick(regionId: int)
      requires Valid()
      modifies this
      ensures Valid() && specs == old(specs)
      ensures AtCorpCave(regionId) ==>
                && infoBoxes == AllCounters
                && dragonWarhammerText == DecimalString(specs.dragonWarhammer)
                && arclightText == DecimalString(specs.arclight)
                && bandosGodswordText == DecimalString(specs.bandosGodsword)
      ensures !AtCorpCave(regionId) ==>
                && infoBoxes == {}
                && dragonWarhammerText == old(dragonWarhammerText)
                && arclightText == old(arclightText)
                && bandosGodswordText == old(bandosGodswordText)
    {
      if AtCorpCave(regionId) && DragonWarhammerBox !in infoBoxes {
        infoBoxes := infoBoxes + {DragonWarhammerBox};
        infoBoxes := infoBoxes + {ArclightBox};
        infoBoxes := infoBoxes + {BandosGodswordBox};
      } else if !AtCorpCave(regionId) {
        RemoveInfoBoxes();
      }

      if AtCorpCave(regionId) {
        dragonWarhammerText := DecimalString(specs.dragonWarhammer);
        arclightText := DecimalString(specs.arclight);
        bandosGodswordText := DecimalString(specs.bandosGodsword);
      }
    }

    method RemoveInfoBoxes()
      modifies this`infoBoxes
      ensures infoBoxes == old(infoBoxes) - AllCounters
    {
      infoBoxes := infoBoxes - {DragonWarhammerBox};
      infoBoxes := infoBoxes - {ArclightBox};
      infoBoxes := infoBoxes - {BandosGodswordBox};
    }
  }
}

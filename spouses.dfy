/** The livelock demonstration of spouses/Program.cs: two diners share one
    spoon; each diner repeatedly checks whether it holds the spoon and, if its
    spouse is still hungry, politely hands the spoon over instead of eating.

    The module has two layers.
    - A value-level state machine (`State`, `Step`, `Run`): the owner of the
      spoon and the set of diners that are still hungry; one `Step` is one
      iteration of one diner's `EatWith` loop, and a schedule (a sequence of
      diner ids) stands for an arbitrary interleaving of the two loops.
    - The objects of the program (`Spoon`, `Diner`), whose methods update
      their fields in place and are proved against that state machine. */
module Spouses {

  /** The two diners that `Main` creates: the husband ("Bob") and the wife
      ("Alice"). */
  datatype DinerId = Husband | Wife

  /** Each diner eats with the other as its spouse. */
  function Spouse(d: DinerId): (r: DinerId)
    ensures r != d
  {
    if d == Husband then Wife else Husband
  }

  datatype Option<T> = None | Some(value: T)

  /** What one iteration of the `EatWith` loop does. */
  datatype Action =
    | Wait  // not holding the spoon: sleep and re-check
    | Pass  // holding it, spouse hungry: hand the spoon over
    | Eat   // holding it, spouse satisfied: eat, then hand the spoon over

  /** The branch taken by one loop iteration, from whether this diner holds
      the spoon and whether its spouse is hungry. */
  function Decide(holdsSpoon: bool, spouseHungry: bool): (a: Action)
    // a diner without the spoon never acts on it
    ensures a == Wait <==> !holdsSpoon
    // the holder defers exactly when its spouse is hungry
    ensures a == Pass <==> holdsSpoon && spouseHungry
    // the holder eats only once its spouse is satisfied
    ensures a == Eat <==> holdsSpoon && !spouseHungry
  {
    if !holdsSpoon then Wait
    else if spouseHungry then Pass
    else Eat
  }

  /** The whole shared state: who holds the spoon and which diners are still
      hungry. Only two ids exist, so the owner is always one of the diners. */
  datatype State = State(owner: DinerId, hungry: set<DinerId>)

  /** Both diners start hungry and the husband starts with the spoon. */
  const Initial: State := State(Husband, {Husband, Wife})

  ghost predicate BothHungry(s: State)
  {
    Husband in s.hungry && Wife in s.hungry
  }

  /** One iteration of diner `d`'s loop. A diner that is no longer hungry has
      left its loop and takes no further steps. */
  function Step(s: State, d: DinerId): (t: State)
    // hunger only ever goes away
    ensures t.hungry <= s.hungry
    // only a hungry holder moves the spoon, and only to its spouse
    ensures t.owner != s.owner ==> d == s.owner && d in s.hungry && t.owner == Spouse(d)
    // only the holder itself stops being hungry, and only when its spouse is satisfied
    ensures t.hungry != s.hungry ==>
              t.hungry == s.hungry - {d} && d == s.owner && Spouse(d) !in s.hungry
  {
    if d !in s.hungry then s
    else
      match Decide(s.owner == d, Spouse(d) in s.hungry)
      case Wait => s
      case Pass => s.(owner := Spouse(d))
      case Eat => State(Spouse(d), s.hungry - {d})
  }

  /** The state after the steps of `schedule`, taken one after another. */
  function Run(s: State, schedule: seq<DinerId>): (t: State)
    ensures t.hungry <= s.hungry
    decreases |schedule|
  {
    if |schedule| == 0 then s
    else Step(Run(s, schedule[..|schedule| - 1]), schedule[|schedule| - 1])
  }

  /** A diner that does not hold the spoon changes nothing: it only sleeps. */
  lemma WaitChangesNothing(s: State, d: DinerId)
    requires s.owner != d
    ensures Step(s, d) == s
  {
  }

  /** A hungry holder whose spouse is hungry passes the spoon and stays hungry. */
  lemma PassKeepsHunger(s: State, d: DinerId)
    requires s.owner == d && d in s.hungry && Spouse(d) in s.hungry
    ensures Step(s, d) == State(Spouse(d), s.hungry)
  {
  }

  /** A hungry holder whose spouse is satisfied eats and then passes the spoon. */
  lemma EatThenPass(s: State, d: DinerId)
    requires s.owner == d && d in s.hungry && Spouse(d) !in s.hungry
    ensures Step(s, d).owner == Spouse(d)
    ensures Step(s, d).hungry == {}
  {
    forall e | e in s.hungry
      ensures e == d
    {
    }
  }

  /** A diner that is no longer hungry has left its loop: its steps change nothing. */
  lemma SatisfiedDinerIsIdle(s: State, d: DinerId)
    requires d !in s.hungry
    ensures Step(s, d) == s
  {
  }

  /** Between a diner's check of the owner and its write of the owner, the
      other diner can only wait: a step by anyone but the holder leaves the
      state untouched. So treating one loop iteration as atomic loses nothing. */
  lemma {:induction false} OthersCannotInterfere(s: State, others: seq<DinerId>)
    requires forall i :: 0 <= i < |others| ==> others[i] != s.owner
    ensures Run(s, others) == s
    decreases |others|
  {
    if |others| > 0 {
      var prefix := others[..|others| - 1];
      OthersCannotInterfere(s, prefix);
    }
  }

  /** Once a diner is satisfied it stays satisfied under every schedule. */
  lemma SatisfiedStaysSatisfied(s: State, d: DinerId, schedule: seq<DinerId>)
    requires d !in s.hungry
    ensures d !in Run(s, schedule).hungry
  {
  }

  /** While both are hungry, the holder always gives the spoon away: every
      holder step changes the state, yet nobody gets fed. */
  lemma PoliteHolderKeepsPassing(s: State)
    requires BothHungry(s)
    ensures Step(s, s.owner) != s
    ensures Step(s, s.owner).owner == Spouse(s.owner)
    ensures BothHungry(Step(s, s.owner))
  {
  }

  /** If both diners are hungry, every step by either diner leaves both hungry. */
  lemma BothHungryIsPreserved(s: State, d: DinerId)
    requires BothHungry(s)
    ensures BothHungry(Step(s, d))
    ensures Step(s, d).hungry == s.hungry
  {
  }

  /** The livelock: from a state where both diners are hungry, no schedule
      whatsoever lets either of them eat. */
  lemma {:induction false} Livelock(s: State, schedule: seq<DinerId>)
    requires BothHungry(s)
    ensures BothHungry(Run(s, schedule))
    decreases |schedule|
  {
    if |schedule| > 0 {
      var prefix := schedule[..|schedule| - 1];
      Livelock(s, prefix);
      BothHungryIsPreserved(Run(s, prefix), schedule[|schedule| - 1]);
    }
  }

  /** From the program's initial state nobody ever eats, so neither
      `EatWith` loop ever exits: the program runs forever. */
  lemma NobodyEverEats(schedule: seq<DinerId>)
    ensures Run(Initial, schedule).hungry == {Husband, Wife}
  {
    Livelock(Initial, schedule);
  }

  /** The diner objects. `name` never changes after construction; the hunger
      flag is cleared only by the diner itself, right after it used the spoon. */
  class Diner {
    const name: string
    var isHungry: bool

    /** A new diner is hungry. */
    constructor (n: string)
      ensures name == n && isHungry
    {
      name := n;
      isHungry := true;
    }

    /** One iteration of the body of the `while (IsHungry)` loop of `EatWith`.
        The caller (the loop) has just seen `isHungry`. `eater` is the name
        announced by `Spoon.Use` when this iteration eats, and `None` otherwise. */
    method EatWithStep(spoon: Spoon, spouse: Diner) returns (eater: Option<string>)
      requires spouse != this && isHungry
      modifies this, spoon
      ensures spouse.isHungry == old(spouse.isHungry)
      // the spoon is used only in the eat branch, and then by this diner, its holder
      ensures eater.Some? <==> old(spoon.owner) == this && !old(spouse.isHungry)
      ensures eater.Some? ==> eater.value == name
      // wait: not the holder, nothing changes
      ensures old(spoon.owner) != this ==> spoon.owner == old(spoon.owner) && isHungry
      // pass: the spoon goes to the hungry spouse, this diner stays hungry
      ensures old(spoon.owner) == this && old(spouse.isHungry) ==> spoon.owner == spouse && isHungry
      // eat: this diner is satisfied and the spoon goes to the spouse
      ensures old(spoon.owner) == this && !old(spouse.isHungry) ==> spoon.owner == spouse && !isHungry
    {
      eater := None;
      match Decide(spoon.owner == this, spouse.isHungry)
      case Wait =>
        // sleeps for a millisecond and re-checks
      case Pass =>
        spoon.SetOwner(spouse);
      case Eat =>
        var announced := spoon.Use();
        eater := Some(announced);
        isHungry := false;
        spoon.SetOwner(spouse);
    }

    /** The `EatWith` loop of this diner, running while its spouse takes no
        steps, cut off after `fuel` iterations (the loop itself has no bound).
        With a hungry spouse this diner never eats; with a satisfied spouse it
        eats as soon as it holds the spoon. */
    method EatWith(spoon: Spoon, spouse: Diner, fuel: nat) returns (iterations: nat)
      requires spouse != this
      modifies this, spoon
      ensures spouse.isHungry == old(spouse.isHungry)
      // hunger only goes away, and only for a hungry holder whose spouse is satisfied
      ensures isHungry == (old(isHungry) && !(old(spoon.owner) == this && !old(spouse.isHungry) && 0 < fuel))
      // a hungry holder hands the spoon over in its first iteration (passing or after eating);
      // a diner without the spoon only waits, so the owner stays put
      ensures spoon.owner == if old(isHungry) && old(spoon.owner) == this && 0 < fuel then spouse else old(spoon.owner)
      // no iteration when not hungry, one when the holder eats, otherwise the loop uses up the fuel
      ensures iterations == if !old(isHungry) then 0
                            else if old(spoon.owner) == this && !old(spouse.isHungry) && 0 < fuel then 1
                            else fuel
    {
      iterations := 0;
      while isHungry && iterations < fuel
        invariant iterations <= fuel
        invariant spouse.isHungry == old(spouse.isHungry)
        invariant old(spouse.isHungry) ==> isHungry == old(isHungry)
        invariant isHungry ==> old(isHungry)
        invariant !old(isHungry) ==> iterations == 0 && spoon.owner == old(spoon.owner)
        invariant old(isHungry) && !old(spouse.isHungry) && old(spoon.owner) == this && 0 < iterations ==>
                    !isHungry && spoon.owner == spouse
        invariant iterations == 0 ==> isHungry == old(isHungry) && spoon.owner == old(spoon.owner)
        invariant old(spoon.owner) != this ==> spoon.owner == old(spoon.owner)
        invariant old(isHungry) && old(spoon.owner) == this && 0 < iterations ==> spoon.owner == spouse
        invariant old(spoon.owner) != this ==> isHungry == old(isHungry)
        invariant old(isHungry) && old(spoon.owner) == this && !old(spouse.isHungry) ==> iterations <= 1
        decreases fuel - iterations
      {
        var _ := EatWithStep(spoon, spouse);
        iterations := iterations + 1;
      }
    }
  }

  /** The spoon: a cell holding its current owner. */
  class Spoon {
    var owner: Diner

    /** A new spoon is held by the given diner. */
    constructor (diner: Diner)
      ensures owner == diner
    {
      owner := diner;
    }

    method SetOwner(d: Diner)
      modifies this
      ensures owner == d
    {
      owner := d;
    }

    /** Using the spoon changes no state (it modifies nothing); the name
        returned is the holder's, the one the program writes to the console. */
    method Use() returns (eater: string)
      ensures eater == owner.name
    {
      eater := owner.name;
    }
  }

  /** The abstract state of the two diners and their spoon. */
  function StateOf(spoon: Spoon, husband: Diner, wife: Diner): State
    reads spoon, husband, wife
  {
    State(if spoon.owner == husband then Husband else Wife,
          (if husband.isHungry then {Husband} else {}) + (if wife.isHungry then {Wife} else {}))
  }

  /** The program: create the husband, the wife and a spoon held by the
      husband, then run the two `EatWith` loops interleaved as `schedule`
      says (each entry is one loop iteration of that diner; a diner whose loop
      has exited skips its turn). Returns the final state, in which both
      diners are still hungry. */
  method Dine(schedule: seq<DinerId>) returns (final: State)
    ensures final == Run(Initial, schedule)
    ensures final.hungry == {Husband, Wife}
  {
    var husband := new Diner("Bob");
    var wife := new Diner("Alice");
    var spoon := new Spoon(husband);
    var i := 0;
    while i < |schedule|
      invariant 0 <= i <= |schedule|
      invariant spoon.owner == husband || spoon.owner == wife
      invariant StateOf(spoon, husband, wife) == Run(Initial, schedule[..i])
    {
      var who := schedule[i];
      var me := if who == Husband then husband else wife;
      var spouse := if who == Husband then wife else husband;
      if me.isHungry {
        var _ := me.EatWithStep(spoon, spouse);
      }
      assert schedule[..i + 1][..i] == schedule[..i];
      i := i + 1;
    }
    assert schedule[..i] == schedule;
    final := StateOf(spoon, husband, wife);
    NobodyEverEats(schedule);
  }
}

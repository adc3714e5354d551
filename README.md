# Spouses: a livelock over one spoon, in Dafny

This project models the livelock demonstration of the `spouses` program
(`spouses/Program.cs`) and the small generic linked list next to it
(`spouses/LinkedList.cs`).

The program has two diners, a husband and a wife, and one `Spoon`. Each
diner runs `EatWith`, a `while (IsHungry)` loop. An iteration does one of
three things:

- **wait**: the diner does not hold the spoon, so it sleeps and checks again;
- **pass**: the diner holds the spoon and its spouse is hungry, so it hands
  the spoon to the spouse and stays hungry;
- **eat**: the diner holds the spoon and its spouse is satisfied, so it uses
  the spoon, stops being hungry and then hands the spoon over.

Both diners start hungry and the husband starts with the spoon. So the spoon
goes back and forth forever and nobody eats. The file's header says this
program "runs forever", and the model proves it.

The model has two layers (module `Spouses`, file `spouses.dfy`):

- **A state machine on values.** `State` holds the owner of the spoon (one of
  the two `DinerId`s) and the set of diners that are still hungry. `Step(s, d)`
  is one loop iteration by diner `d`. `Run(s, schedule)` applies the steps of
  a schedule, which is a sequence of diner ids. A schedule stands for any
  interleaving of the two threads. Treating one iteration as atomic loses no
  behaviour, for two reasons. Only the holder writes the owner. Only a diner
  writes its own hunger flag. The lemma `OthersCannotInterfere` shows that
  steps by a non-holder change nothing.
- **The program's objects.** `Diner` and `Spoon` are classes whose methods
  update their fields in place. `Diner.EatWithStep` is one loop body.
  `Diner.EatWith` is the loop. `Dine` plays `Main`: it builds the two diners
  and the spoon and then runs the loop bodies in the order a schedule gives.
  It is proved to end in exactly the state that `Run` computes, and in that
  state both diners are still hungry.

Module `Utility` (file `linked_list.dfy`) models `Node<T>` and
`LinkedList<T>`. `Insert` dereferences `first`. But `first` starts null and is
never assigned, so every `Insert` on a real list fails. See "## Findings".

The model covers only what the program does. The program has no fairness
override, no supervisor with step or time budgets, no outcome
classification, no event stream, no busy flag, no ownership operations that
report success or failure, no configuration checks and no more than two
diners. So the model has none of these either.

## Model

| member | source | states |
|---|---|---|
| `Spouses.Spouse` | spouses/Program.cs:29-30 | each diner eats with the other diner, never with itself |
| `Spouses.Decide` | spouses/Program.cs:84-109 | the choice made by one iteration. It waits exactly when the diner does not hold the spoon. It passes exactly when the diner holds the spoon and its spouse is hungry. It eats exactly when the diner holds the spoon and its spouse is satisfied |
| `Spouses.Step` | spouses/Program.cs:81-110 | one iteration never makes a diner hungry again. Only a hungry holder moves the spoon, and only to its spouse. Only the holder stops being hungry, and only when its spouse is already satisfied |
| `Spouses.Run` | spouses/Program.cs:28-31 | under any interleaving of the two loops, the set of hungry diners can only shrink |
| `Spouses.WaitChangesNothing` | spouses/Program.cs:84-95 | an iteration by a diner that does not hold the spoon leaves the whole state unchanged |
| `Spouses.PassKeepsHunger` | spouses/Program.cs:98-103 | a hungry holder with a hungry spouse gives the spoon to the spouse, and nobody's hunger changes |
| `Spouses.EatThenPass` | spouses/Program.cs:105-109 | a hungry holder with a satisfied spouse ends up not hungry, with the spoon held by the spouse, and nobody is hungry any more |
| `Spouses.SatisfiedDinerIsIdle` | spouses/Program.cs:81 | a diner that is no longer hungry has left its loop, so its turns change nothing |
| `Spouses.OthersCannotInterfere` | spouses/Program.cs:84-109 | any run of steps by diners other than the holder leaves the state exactly as it was, so the owner cannot change between the holder's check and its write |
| `Spouses.SatisfiedStaysSatisfied` | spouses/Program.cs:105-107 | once a diner is satisfied it stays satisfied under every later schedule |
| `Spouses.PoliteHolderKeepsPassing` | spouses/Program.cs:98-103 | while both are hungry, a step by the holder always changes the state and moves the spoon to the spouse, yet both stay hungry |
| `Spouses.BothHungryIsPreserved` | spouses/Program.cs:98-109 | if both diners are hungry, a step by either one leaves both hungry and the hungry set unchanged |
| `Spouses.Livelock` | spouses/Program.cs:81-110 | from any state where both diners are hungry, every schedule ends with both still hungry |
| `Spouses.NobodyEverEats` | spouses/Program.cs:23-31 | from the program's initial state, with both hungry and the husband holding the spoon, every schedule ends with both hungry. So neither loop exits and the program runs forever |
| `Spouses.Diner.constructor` | spouses/Program.cs:69-73 | a new diner has the given name and is hungry |
| `Spouses.Diner.EatWithStep` | spouses/Program.cs:83-109 | the three branches of one iteration. Wait leaves the owner and the diner's hunger alone. Pass gives the spoon to the spouse and keeps the diner hungry. Eat clears the diner's hunger and gives the spoon to the spouse. The spouse's hunger is never touched. The spoon is used only in the eat branch, and the name it announces is this diner's own, because only the holder reaches `Use` |
| `Spouses.Diner.EatWith` | spouses/Program.cs:79-111 | the whole new state of a solo run. A diner that is not hungry runs no iteration. A hungry holder with a satisfied spouse eats in its first iteration, hands the spoon over and stops after one iteration. Every other hungry diner stays hungry and uses up the fuel. A hungry holder hands the spoon to its spouse in its first iteration. Otherwise the owner is unchanged. The spouse's hunger is never touched |
| `Spouses.Spoon.constructor` | spouses/Program.cs:37-40 | a new spoon is held by the diner it was given |
| `Spouses.Spoon.SetOwner` | spouses/Program.cs:45-46 | after the call the spoon is held by the given diner |
| `Spouses.Spoon.Use` | spouses/Program.cs:48-52 | using the spoon changes nothing, since it modifies no object, and reports the current holder's name. `Diner.EatWithStep` relies on this to show that the diner announced as eating is the one that eats |
| `Spouses.Dine` | spouses/Program.cs:21-32 | the program ends in exactly the state `Run` gives from the initial state, and in that state both diners are hungry |
| `Utility.Node.constructor` | spouses/LinkedList.cs:13-16 | a node holds exactly the given value and successor |
| `Utility.LinkedList.constructor` | spouses/LinkedList.cs:21 | a new list has a null `first` |
| `Utility.LinkedList.Insert` | spouses/LinkedList.cs:22-26 | needs a non-null `first`, because line 25 writes through it. It never reassigns `first` and never changes `first`'s value. The new node holds the value and points to `first`, and `first` now points to the new node, which makes a two-node cycle |
| `Utility.InsertIntoNewList` | spouses/LinkedList.cs:21-25 | a new list does not meet `Insert`'s need of a non-null `first`, so `Insert`'s write to `first.Next` goes through null. `Insert` never assigns `first`, so no later call changes this |
| `Utility.Values` | spouses/LinkedList.cs:9-16 | the values of a sequence of nodes, one per node and in the same order. Only `CorrectedList.Valid` makes that sequence the chain linked by `next` |
| `Utility.CorrectedList.constructor` | spouses/LinkedList.cs:21 | a new corrected list is well formed and empty |
| `Utility.CorrectedList.Insert` | spouses/LinkedList.cs:22-26 | the intended insert keeps the list acyclic and null-terminated, puts the value in front of the old contents, and makes the new node `first` |

## Left out

- Threads: `Task.Run`/`Task.WaitAll` (spouses/Program.cs:28-31) become a schedule, a sequence of diner ids. Each id runs one loop iteration of that diner.
- `Thread.Sleep(1)` and the ignored `ThreadInterruptedException` (spouses/Program.cs:86-92) are only the wait branch. Time is not modelled.
- The `MethodImplOptions.Synchronized` locks on `SetOwner` and `Use` are not modelled. Each loop iteration is already treated as atomic.
- Memory-model effects such as stale reads of `Owner` or `IsHungry` are not modelled.
- Console output (spouses/Program.cs:51, 100, 108) is not modelled. `Use` returns the name it would print.
- Spouses.Diner.EatWith: the source loop has no bound. The model stops after `fuel` iterations, and only the diner itself takes steps. Interleaved runs of both loops are covered by `Dine` and `Run`.
- Spouses.Dine: a diner whose loop has already exited skips its scheduled turns, because a finished thread takes no more steps.
- `Diner.Name` is an immutable field set by the constructor. Its private setter is never called again.
- Utility.LinkedList.Insert: returns the node it creates so its fields can be described. The source method returns nothing.
- MultiRead, MutexDemo and LockingDemo are not part of this model. They are HTTP fetches, OS mutex prompts and timing benchmarks, with no sequential logic tied to the spoon protocol.

## Findings

| source | as written | input that shows it | evidently intended | confidence | as-written member | corrected member |
|---|---|---|---|---|---|---|
| spouses/LinkedList.cs:22-26 | `Insert` makes a node whose `Next` is `first` and then writes `first.Next`. `first` starts null and nothing assigns it, so the write always dereferences null. If `first` were non-null, the two nodes would point at each other | `new LinkedList<T>()` followed by `Insert(v)` | prepend: the new node, whose `Next` is the old `first`, becomes `first` | not executed; high | `Utility.InsertIntoNewList` | `Utility.CorrectedList.Insert` |

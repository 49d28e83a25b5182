# Design-pattern demos, modelled in Dafny

This project models the stateful core of a catalogue of TypeScript design-pattern
demos and proves what each pattern promises:

- **Iterator**: a stepping iterator over an arithmetic sequence. It has a zero-step guard, a direction-dependent bound check and a sticky `finished` flag, and supports `next`, `peek`, `skip`, `reset` and self-iteration.
- **State**: a context that delegates `start`/`stop`/`status` to a stopped or started state object.
- **Command**: a receiver with volume and channel, a closed family of commands including macros, and a remote with named slots.
- **Builder**: a mutable house under construction, handed out by `build`.
- **Flyweight**: a cache of tree types keyed by `name-color`, with insert-if-absent semantics.
- **Observer**: an event emitter mapping event names to ordered listener lists.
- **Composite**: a tree printed in preorder with two spaces of indentation per level.
- **Strategy**: ascending and descending sorts applied by a `Sorter`.
- **Dependency injection**: a user service that receives its logger through its constructor or a setter.
- **Proxy**: a proxy that creates its real image lazily on the first display.
- **Decorator**: string-rewriting stream wrappers over a simple printing stream.

There is one module per source file (`Iterators`, `States`, `Commands`, `Builders`,
`Flyweights`, `Observers`, `Composites`, `Strategies`, `DependencyInjection`, `Proxies`,
`Decorators`), plus `Common`:

- `Common` holds `Option`/`Result` and a `Console` class.
- The `Console` class is the process's standard output: an append-only `seq<string>` that every `console.log` extends by one line. Methods that print take it as a parameter, so the order of output across objects is part of their contracts.
- `Common` also holds the decimal rendering of integers that template strings perform, proved injective by a parse round trip.

Where the source updates fields in place, the model is a class with those fields:

- the iterator's closure variables;
- `Context.state`;
- the receiver's settings and the remote's slot table;
- the house under construction;
- the flyweight and listener maps;
- the memory logger's entries;
- the proxy's real image.

Each method is specified against spec functions or values, and the lemmas beside it prove the promised properties. The stateless state objects, the commands, the composite tree, the sort strategies and the stream stacks are datatypes. A thrown error is a `Failure` result.

## Model

| member | source | states |
|---|---|---|
| Iterators.NewRange | src/behavioral/iterator.ts:10-17 | construction fails with "step cannot be 0" exactly when the step is 0; every other step is accepted and kept with start and end; the step defaults to 1 |
| Iterators.InRangeIffBeforeCount | src/behavioral/iterator.ts:27-29 | the bound check accepts `start + k*step` exactly for the first `Count` values of k, in both directions |
| Iterators.StartInRange | src/behavioral/iterator.ts:27-29 | the start value is in range exactly when the sequence is non-empty |
| Iterators.OutOfRangeStaysOut | src/behavioral/iterator.ts:51-54 | a position past the bound stays past it after any number of further steps |
| Iterators.ValuesEnumerate | src/behavioral/iterator.ts:27-41 | every value of the reference sequence passes the bound check and the next position after it fails |
| Iterators.RangeIterator.UpcomingIsHead | src/behavioral/iterator.ts:32-46 | what `next`/`peek` would produce is the head of the values still ahead; when finished nothing is ahead |
| Iterators.RangeIterator.constructor | src/behavioral/iterator.ts:19-24 | a new iterator starts at `start`, not finished, with the whole reference sequence ahead |
| Iterators.RangeIterator.Next | src/behavioral/iterator.ts:32-41 | in range: yields `current` and advances by exactly `step`; out of range or finished: done, `finished` set, `current` not advanced; equivalently yields the head of the remaining values and drops it, and done stays done |
| Iterators.RangeIterator.Peek | src/behavioral/iterator.ts:42-46 | returns what the following `next` would yield (the head of the remaining values), or none, and changes nothing |
| Iterators.RangeIterator.Reset | src/behavioral/iterator.ts:47-50 | `current` back to `start`, `finished` cleared, the whole sequence ahead again |
| Iterators.RangeIterator.Skip | src/behavioral/iterator.ts:51-55 | `current` advances by `step * max(0, n)`; `finished` is set when the new position is out of range and stays set; the remaining values lose their first `max(0, n)` |
| Iterators.RangeIterator.SelfIterator | src/behavioral/iterator.ts:56-59 | the iterator's own `[Symbol.iterator]` returns the same object |
| Iterators.RangeIterator.ForOf | src/behavioral/iterator.ts:90-92 | a `for..of` loop collects exactly the remaining values, in order, and leaves the iterator finished with nothing ahead |
| Iterators.Iterate | src/behavioral/iterator.ts:19-31 | each `[Symbol.iterator]` call on a range gives a fresh iterator at `start` with the whole sequence ahead |
| Iterators.DemoAscending | src/behavioral/iterator.ts:69-70 | `Range(1, 7, 2)` yields 1, 3, 5, 7 |
| Iterators.DemoManual | src/behavioral/iterator.ts:72-92 | on `Range(10, 2, -2)`: peek 10, next 10, skip(2), peek 4, the rest 4, 2; after reset the full 10, 8, 6, 4, 2 |
| Iterators.DemoExhausted | src/behavioral/iterator.ts:56-59 | iterating an exhausted iterator again through itself, without reset, yields nothing |
| States.State.Name | src/behavioral/state.ts:17-32 | a state's name is "stopped" or "started", "stopped" exactly for the stopped state |
| States.State.Start | src/behavioral/state.ts:19-35 | from stopped: logs the transition and the hook line and hands the context a started state; from started: only "already started" |
| States.State.Stop | src/behavioral/state.ts:23-39 | from started: logs the transition and the hook line and hands the context a stopped state; from stopped: only "already stopped" |
| States.State.Status | src/behavioral/state.ts:26-42 | logs "status = " and the state's name; changes nothing else |
| States.Context.constructor | src/behavioral/state.ts:48-50 | a new context is stopped |
| States.Context.SetState | src/behavioral/state.ts:52-58 | installs the new state, logs "state changed: <prev> -> <next>" with the old and new names, and `getStateName` then returns the new name |
| States.Context.Start | src/behavioral/state.ts:60-62 | delegates to the current state: resulting state and output as that state's `start` |
| States.Context.Stop | src/behavioral/state.ts:64-66 | delegates to the current state: resulting state and output as that state's `stop` |
| States.Context.Status | src/behavioral/state.ts:68-70 | delegates to the current state; the state is unchanged |
| States.RepeatIsIdempotent | src/behavioral/state.ts:19-39 | a second `start` keeps the state and only prints "already started"; likewise a second `stop` |
| States.TransitionsAreLogged | src/behavioral/state.ts:19-58 | `start`/`stop` change the state exactly when it differs from the target, and every change prints the hook line |
| States.RunEndsAtLastMove | src/behavioral/state.ts:45-75 | after any sequence of calls the state is what the last `start` or `stop` chose, or the initial state (checked against a reference definition scanning from the back) |
| States.OutputTexts | src/behavioral/state.ts:20-41 | the literal text of each status, transition and hook line |
| States.DemoSequence | src/behavioral/state.ts:77-87 | the demo's seven calls end stopped and print the nine expected lines |
| States.DemoState | src/behavioral/state.ts:77-87 | the demo on a new context prints the heading and those nine lines |
| Commands.Receiver.constructor | src/behavioral/command.ts:8-10 | a new receiver has volume 10 and channel 1 |
| Commands.Receiver.TurnOn | src/behavioral/command.ts:12-14 | logs "Receiver: power ON" and changes no setting |
| Commands.Receiver.TurnOff | src/behavioral/command.ts:16-18 | logs "Receiver: power OFF" and changes no setting |
| Commands.Receiver.SetVolume | src/behavioral/command.ts:20-23 | sets the volume only and logs the stored value |
| Commands.Receiver.SetChannel | src/behavioral/command.ts:25-28 | sets the channel only and logs the stored value |
| Commands.Execute | src/behavioral/command.ts:31-68 | every receiver the command holds ends in the state given by the reference semantics `Effect`, and the output is exactly `Output`; a macro runs its commands in order, each once |
| Commands.EffectElsewhere | src/behavioral/command.ts:32-68 | a command, macros included, leaves alone every receiver it does not hold |
| Commands.EffectOfAppend | src/behavioral/command.ts:61-68 | running two command lists back to back is running their concatenation |
| Commands.OutputOfAppend | src/behavioral/command.ts:61-68 | the output of a concatenation is the outputs of its parts, in order |
| Commands.SingleCommandEffects | src/behavioral/command.ts:20-58 | a volume command changes only the volume, a channel command only the channel, power commands neither |
| Commands.EmptyMacro | src/behavioral/command.ts:61-68 | an empty macro changes nothing and prints nothing |
| Commands.ThreeCommands | src/behavioral/command.ts:61-68 | a three-command macro acts as its commands one after the other, and prints their lines in order |
| Commands.WatchMovieEffect | src/behavioral/command.ts:101 | the demo macro on a new receiver leaves channel 99 and volume 7 |
| Commands.RemoteInvoker.constructor | src/behavioral/command.ts:72 | a new remote has no bound slots |
| Commands.RemoteInvoker.SetCommand | src/behavioral/command.ts:74-76 | binds or overwrites the named slot; every other slot keeps its command |
| Commands.RemoteInvoker.Press | src/behavioral/command.ts:78-86 | an unbound slot logs "No command assigned to slot '<name>'" and touches no receiver; a bound slot logs "Invoker: executing '<name>'" and then runs exactly that command once |
| Commands.DemoLineTexts | src/behavioral/command.ts:89-117 | the demo's lines are the announced, receiver and empty-slot lines in order |
| Commands.DemoRemote | src/behavioral/command.ts:92-107 | the demo wiring binds exactly the four named slots |
| Commands.DemoFirstPresses | src/behavioral/command.ts:110-111 | power on then volume 7 print four lines and leave volume 7, channel 1 |
| Commands.DemoLaterPresses | src/behavioral/command.ts:112-116 | the macro, power off and the unbound slot print seven lines and leave volume 7, channel 99 |
| Commands.DemoCommand | src/behavioral/command.ts:89-117 | the whole demo prints its twelve lines and ends at volume 7, channel 99 |
| Builders.House.constructor | src/creational/builder.ts:3-6 | a new house has no windows, no doors and no garage |
| Builders.HouseBuilder.constructor | src/creational/builder.ts:13 | a new builder holds a fresh default house |
| Builders.HouseBuilder.Reset | src/creational/builder.ts:15-18 | replaces the house in progress by a fresh default one and returns the same builder |
| Builders.HouseBuilder.WithWindows | src/creational/builder.ts:20-23 | sets the window count, nothing else, on the same house; returns the same builder |
| Builders.HouseBuilder.WithDoors | src/creational/builder.ts:25-28 | sets the door count, nothing else, on the same house; returns the same builder |
| Builders.HouseBuilder.WithGarage | src/creational/builder.ts:30-33 | sets the garage flag (true by default), nothing else; returns the same builder |
| Builders.HouseBuilder.Build | src/creational/builder.ts:35-39 | returns the house in progress with its accumulated settings and leaves a fresh default house behind |
| Builders.SmallHouseText | src/creational/builder.ts:7-9 | `toString` of 2 windows, 1 door, no garage is "House(windows=2, doors=1, garage=false)" |
| Builders.BigHouseText | src/creational/builder.ts:7-9 | `toString` of 10 windows, 4 doors, a garage is "House(windows=10, doors=4, garage=true)" |
| Builders.DemoHouses | src/creational/builder.ts:44-47 | one builder gives two distinct houses; building the second leaves the first's settings as they were |
| Builders.DemoBuilder | src/creational/builder.ts:42-49 | the demo prints the heading and both houses' texts in order |
| Flyweights.TreeType.constructor | src/structural/flyweight.ts:4 | a tree type keeps its name and color |
| Flyweights.TreeType.Draw | src/structural/flyweight.ts:5-7 | logs the draw line with the position and the shared name and color |
| Flyweights.Key | src/structural/flyweight.ts:13 | the key is the name, a dash, then the color |
| Flyweights.KeysCollide | src/structural/flyweight.ts:13 | ("a-b", "c") and ("a", "b-c") style pairs share a key |
| Flyweights.KeyInjectiveWithoutDashInName | src/structural/flyweight.ts:13 | when neither name contains a dash, equal keys mean equal pairs |
| Flyweights.TreeFactory.constructor | src/structural/flyweight.ts:11 | a new factory caches nothing |
| Flyweights.TreeFactory.GetType | src/structural/flyweight.ts:12-20 | a cached key returns the cached instance and leaves the map unchanged; a missing key stores and returns a new tree type with the requested name and color, growing the map by one; no entry is ever removed or replaced |
| Flyweights.DemoCollision | src/structural/flyweight.ts:13-17 | ("a", "b-c") after ("a-b", "c") returns the first-created instance, named "a-b" |
| Flyweights.DemoFlyweight | src/structural/flyweight.ts:23-31 | two identical requests give the identical instance; the demo prints "same instance? true" and both draw lines |
| Observers.Emitter.constructor | src/behavioral/observer.ts:6 | a new emitter has no listeners |
| Observers.Emitter.On | src/behavioral/observer.ts:8-12 | appends the listener to the end of the event's list, creating it on first use; every other event's list is unchanged |
| Observers.Emitter.Emit | src/behavioral/observer.ts:14-17 | invokes exactly the event's listeners, in registration order, each once, all with the same arguments; the map is not modified |
| Observers.DemoDuplicate | src/behavioral/observer.ts:9-10 | a listener registered twice is invoked twice |
| Observers.DemoSilent | src/behavioral/observer.ts:15-16 | emitting an event nobody listens to invokes nothing and adds no entry |
| Observers.DemoObserver | src/behavioral/observer.ts:20-27 | the demo listener is invoked once with "alice" and "hello!" |
| Composites.Add | src/structural/composite.ts:18-20 | the child is appended after the existing children, name kept |
| Composites.PrintIsRenderedOutline | src/structural/composite.ts:10-24 | printing is rendering the preorder listing of the tree: each node's line is the base indentation, two spaces per level of depth, then its name |
| Composites.PrintAllIsRenderedOutline | src/structural/composite.ts:23 | the children print one after the other, each one level deeper |
| Composites.PrintLength | src/structural/composite.ts:10-24 | a component prints one line per node, its own line first, as indentation plus name |
| Composites.PrintAllLength | src/structural/composite.ts:23 | the children's lines number their nodes |
| Composites.PrintAfterAdd | src/structural/composite.ts:18-24 | after `add`, the composite prints as before followed by the new child one level deeper |
| Composites.DemoRootPrint | src/structural/composite.ts:29-30 | the root with its leaf prints "root", "  leaf-a" |
| Composites.DemoBranchPrint | src/structural/composite.ts:31-33 | the branch prints its two leaves two spaces deeper |
| Composites.DemoPrint | src/structural/composite.ts:27-36 | the demo tree prints "root", "  leaf-a", "  branch", "    leaf-b1", "    leaf-b2" |
| Strategies.InsertPermutes | src/behavioral/strategy.ts:5-6 | insertion adds exactly the inserted element |
| Strategies.InsertSorted | src/behavioral/strategy.ts:5-6 | insertion into a sorted list keeps it sorted |
| Strategies.SortBySortsAndPermutes | src/behavioral/strategy.ts:5-6 | the comparison sort returns an ordered permutation of its input |
| Strategies.Asc | src/behavioral/strategy.ts:5 | `asc` returns an ascending permutation of its input |
| Strategies.Desc | src/behavioral/strategy.ts:6 | `desc` returns a descending permutation of its input |
| Strategies.Sorter.Sort | src/behavioral/strategy.ts:8-15 | `sort` returns exactly what the sorter's strategy returns: a permutation ordered by that strategy |
| Strategies.SortedPermutationUnique | src/behavioral/strategy.ts:5-6 | two sorted lists with the same elements are equal, so the result does not depend on the sorting algorithm |
| Strategies.DescIsReversedAsc | src/behavioral/strategy.ts:5-6 | `desc` is `asc` reversed |
| Strategies.DemoAsc | src/behavioral/strategy.ts:20-22 | [5, 3, 9, 1] sorts to [1, 3, 5, 9] ascending |
| Strategies.DemoDesc | src/behavioral/strategy.ts:23-24 | [5, 3, 9, 1] sorts to [9, 5, 3, 1] descending |
| DependencyInjection.MemoryLogger.constructor | src/creational/dependencyInjection.ts:12 | a new memory logger has no entries |
| DependencyInjection.MemoryLogger.Log | src/creational/dependencyInjection.ts:13-15 | appends the message after the existing entries |
| DependencyInjection.Logger.Log | src/creational/dependencyInjection.ts:1-16 | either logger records exactly the message after what it had recorded (the console logger on standard output) |
| DependencyInjection.ActionMessage | src/creational/dependencyInjection.ts:32 | the message is "Action for user " followed by the rendered id |
| DependencyInjection.ActionMessageInjective | src/creational/dependencyInjection.ts:32 | different user ids give different messages |
| DependencyInjection.UserService.constructor | src/creational/dependencyInjection.ts:22-24 | the service holds the logger it was given, or none |
| DependencyInjection.UserService.SetLogger | src/creational/dependencyInjection.ts:27-29 | replaces the logger |
| DependencyInjection.UserService.PerformAction | src/creational/dependencyInjection.ts:31-36 | fails with "Logger not provided" exactly when there is no logger, changing nothing; otherwise returns the message and the logger records exactly that one message |
| DependencyInjection.CreateWithConsoleLogger | src/creational/dependencyInjection.ts:41-43 | a new service wired to a console logger |
| DependencyInjection.CreateWithMemoryLogger | src/creational/dependencyInjection.ts:45-49 | a new service wired to the new, empty memory logger that is returned with it |
| DependencyInjection.ConstructorInjection | test/dependencyInjection.test.ts:7-12 | with a constructor-injected memory logger, the action for user 42 returns "Action for user 42" and logs exactly that |
| DependencyInjection.SetterInjection | test/dependencyInjection.test.ts:14-20 | with a setter-injected logger, the action for user 7 returns and logs "Action for user 7" |
| DependencyInjection.InjectorWiring | test/dependencyInjection.test.ts:22-25 | the injector's logger records one entry after one action |
| DependencyInjection.MissingLogger | src/creational/dependencyInjection.ts:33 | without a logger the action fails with "Logger not provided" and nothing is printed |
| Proxies.RealImage.constructor | src/structural/proxy.ts:8 | a real image keeps its filename |
| Proxies.RealImage.Load | src/structural/proxy.ts:9-11 | `load` would log "loading <filename>" |
| Proxies.RealImage.Display | src/structural/proxy.ts:12-14 | logs "displaying <filename>" once |
| Proxies.ProxyImage.constructor | src/structural/proxy.ts:18-19 | a new proxy holds no real image |
| Proxies.ProxyImage.Display | src/structural/proxy.ts:20-29 | the first call creates a real image with the proxy's filename and logs "Proxy: created real image"; later calls keep the same image; every call then logs "displaying <filename>" |
| Proxies.CreatedIsNotDisplay | src/structural/proxy.ts:12-28 | the creation line is never a display line |
| Proxies.CreatedAtMostOnce | src/structural/proxy.ts:20-29 | over any number of displays the creation line appears once if the proxy was new and never otherwise, and the display line once per call |
| Proxies.DemoProxy | src/structural/proxy.ts:32-37 | two displays print the creation line once and the display line twice, and never a loading line |
| Decorators.NewPrefixDecorator | src/structural/decorator.ts:26-29 | a prefix decorator keeps its inner stream and prefix, "[pref]" by default |
| Decorators.ToUpper | src/structural/decorator.ts:19 | upper-casing keeps length and maps each ASCII lower-case letter to its capital, other characters unchanged |
| Decorators.UpperIdempotent | src/structural/decorator.ts:19 | upper-casing twice is upper-casing once |
| Decorators.UpperDistributes | src/structural/decorator.ts:19 | upper-casing distributes over concatenation |
| Decorators.Write | src/structural/decorator.ts:7-33 | a write through a stack logs exactly one line: the simple stream prints its text unchanged, the upper-casing layer forwards the upper-cased text, the prefix layer forwards prefix, space, text |
| Decorators.WrittenSplits | src/structural/decorator.ts:13-33 | writing `a + b` prints what writing `a` prints followed by `b`, upper-cased exactly when some layer upper-cases |
| Decorators.WrittenIsHeaderThenMessage | src/structural/decorator.ts:13-33 | every printed line is a header fixed by the stack followed by the message as the stack transforms it |
| Decorators.DoubleUppercase | src/structural/decorator.ts:18-20 | two upper-casing layers print the same as one |
| Decorators.PrefixCommutesWithUppercase | src/structural/decorator.ts:13-33 | a prefix with nothing to capitalise commutes with upper-casing |
| Decorators.DemoLine | src/structural/decorator.ts:35-39 | the demo stack turns "hello decorators" into "[PREF] HELLO DECORATORS" |
| Decorators.DemoDecorator | src/structural/decorator.ts:35-39 | the demo prints the heading and "[PREF] HELLO DECORATORS" |

## Left out

- src/creational/diContainer.ts and its test: they wrap a third-party container with global registration state and metadata decorators, foreign code that is not modelled.
- src/creational/singleton.ts: its value comes from `Math.random()` and a static global; it is not part of this model.
- src/creational/abstractFactory.ts, src/creational/factory.ts, src/creational/prototype.ts, src/structural/bridge.ts, src/structural/adapter.ts and src/behavioral/template.ts: each only picks a fixed line to print or copies fields, so there is nothing to state about them; test/adapter.test.ts imports names src/structural/adapter.ts does not define.
- src/index.ts and the run-if-main checks at the bottom of each file: process and module-URL plumbing.
- Numbers are unbounded integers: fractional starts, ends, steps and `skip` arguments (and the `Math.floor` of the latter), NaN, infinities and floating-point rounding are not modelled; the sort comparators are exact integer comparisons.
- Number formatting in log lines is the decimal rendering of an integer, with a leading minus for negatives; JavaScript's formatting of non-integral numbers is not modelled.
- Decorators.ToUpper: upper-cases ASCII letters only; JavaScript's Unicode case mapping (which can also change the length, as for "ß") is not modelled.
- Observers.Emitter.Emit: listeners are opaque identifiers and `emit` returns the invocations it makes instead of running listener bodies, so what a listener prints (the demo's "received from alice: hello!" line) and listeners that call `on` during `emit` are not modelled.
- Commands: commands that press the remote again while executing (re-entrancy) are not modelled; the slot table is a map, so inherited object keys such as "toString" never count as bound slots.
- Composites.Add: the tree is an immutable, acyclic value, so `add` returns a new composite instead of pushing into a shared `children` array; aliasing (one child added under several parents, later mutated) and cyclic trees are not modelled.
- Strategies: the sort is specified by its result (sorted and a permutation, unique by `SortedPermutationUnique`); which algorithm the JavaScript engine uses is not modelled, and the copy the strategies sort is implicit because lists are values.
- Proxies: the `bind` rewrite of the real image's `display` has no observable effect and is not modelled.
- The iterator demo's console lines (headings, "peek ->", "next ->" and the values) are not modelled as text; Iterators.DemoAscending, Iterators.DemoManual and Iterators.DemoExhausted return the values the demo prints instead.
- The strategy and observer demos' console lines are not modelled as text; their results are returned instead.

# Verified models of jQuery, Chart.js and serializeJSON

The repository keeps three JavaScript libraries with real algorithms in them: jQuery 3.3.1 with
its selector engine Sizzle, Chart.js 2.9.3, and the serializeJSON plugin.  This project models
their hardest parts in Dafny and proves what they promise.  `dafny verify dfyconfig.toml` checks
everything.

Code that changes things step by step is modelled as classes and methods over arrays, sequences
and fields, each proved equal to a specification function; the promises are then proved about
that function, for all inputs and all runs.

- **Callback lists** (`Callbacks`, `CallbacksOnce`, `CallbacksFifo`, `CallbacksEmptied`,
  `CallbacksReachable`, `CallbacksOptions`, `CallbackList`).  The firing loop of `jQuery.Callbacks` is cut at every
  callback invocation, so that a run is a sequence of events: an operation by whoever has
  control, or the return of the running callback.  This covers every nesting of calls made from
  inside callbacks.  `CallbackList` is the object with its variables.
- **Deferreds** (`Deferred`, `DeferredSettlement`, `DeferredClients`, `DeferredObject`).  Six callback
  lists, wired by the constructor's own callbacks, with nested firings.  `DeferredObject` is the object.
- **`then`** (`ThenResolution`, `ThenDelivery`).  The resolvers of one `then` call, with `maxDepth`,
  against thenables that keep all resolvers and call them in any order, any number of times, or
  throw; and what the callbacks of the derived deferred receive.
- **Selectors** (`Selectors`, `SelectorCache`).  Tokens compiled to nested matchers, the declarative
  meaning of a selector, and the memoised walk whose nodes share one mutable cache cell.
- **`:nth-child`** (`NthChild`).  The search that resumes from an index cached on the parent.
- **Escapes** (`Escape`, `EscapeLaws`).  `Sizzle.escape` and the unescaping of selectors, on UTF-16 code units.
- **Nested names** (`NestedNames`, `NestedNamesRoundTrip`, `NestedRecords`, `NestedPaths`,
  `DeepSetInPlace`).  `jQuery.param` prints a tree to `a[b][0][]` names; serializeJSON rebuilds it, with or
  without taking digits for array indices.  Objects inherit properties, which get in the way of entries
  with the same keys.  `DeepSetInPlace` works on mutable objects and arrays, as `deepSet` does.
- **Time scale** (`TimeScale`, `LookupTable`, `LookupRanks`, `Filtering`).  Binary search, interpolation
  both ways, the spreading of timestamps and the compression of the lookup table.
- **Splines** (`Spline`, `SplineTangents`, `SplineCurve`).  The monotone cubic: first tangents, which are
  limited in one pass over the intervals, and the Bezier curve drawn with them, which is monotone.
- **Layout** (`Layout`).  Boxes fitted and placed around the chart area.
- **Conversion routes** (`Routes`), **fill targets** (`Filler`), **data and elements** (`DataSync`) and
  **colours** (`Color`).

Arithmetic is over the reals; `Math.sqrt` is any function with `s >= 0` and `s * s == x`.  Clocks,
callbacks, thenables, tests on elements and the sizes that boxes ask for are parameters or
arbitrary choices.

## What the code does not promise after all

Each of these has its exact condition or a concrete input in the table below.

- `empty` called while a list fires does not reset the firing index, so that of the callbacks added
  next those at places up to the firing index are passed over.
- `Math.round` in the table compression drops items that are not halfway between their neighbours;
  the compressed table then interpolates differently.
- A printed tree does not come back if an entry with an inherited key, such as `constructor`, holds
  an object or array, or if a key is `__proto__`.  Nor does it, when digits are taken for array
  indices, if an object below the root starts with a key of digits; and otherwise, if an array
  starts with an object or array.
- Fields printed as `a[][k]` in order come back as the same records only if each record starts with a key
  that marks it off from the one before and goes on with keys that are not inherited.
- `splice` on chart data beyond its end, or at a negative place, or without a count, leaves elements
  that belong to no datum or to another one.
- `updateDims` compares the dimensions with those it has just stored, so that no box is ever fitted
  twice.
- The tokenizer does not take the result of `Sizzle.escape` as one identifier when it holds a numeric
  escape or a character from U+0080 to U+00A0.

## Model

| member | source | states |
|---|---|---|
| `CallbacksOnce.ExactlyOnce` | js/jquery-3.3.1.js:3255-3402 | In every run of a "once memory" list with calls from inside callbacks, no registration runs twice, invocations follow registration order and all carry the first fired arguments; once the firing is over, a registration has run if and only if it was not taken out before it was reached. `empty` is only excluded while the firing index is past -1. |
| `CallbacksOnce.EverythingDelivered` | js/jquery-3.3.1.js:3255-3402 | If no event takes anything out and a fire came through, the invocations of a finished firing are exactly all registrations, in order, whether added before, during or after the firing. |
| `CallbacksOnce.RunKeeps` | js/jquery-3.3.1.js:3225-3402 | The invariant behind it over all runs: log, removed registrations and those still ahead partition what was ever registered; the list is locked if and only if it was fired, locked or disabled. |
| `CallbacksOnce.DisabledForGood` | js/jquery-3.3.1.js:3368-3372 | After `disable`, from any state, no sequence of events ever runs a callback again. |
| `CallbacksOnce.LockedBeforeFiring` | js/jquery-3.3.1.js:3380-3386 | A list locked before its first fire never runs anything. |
| `CallbacksEmptied.EmptyThenAddRunsIff` | js/jquery-3.3.1.js:3358-3363 | Of the callbacks added after `empty` during a firing, exactly those at places behind the firing index run in the rest of the firing. |
| `CallbacksEmptied.DrainDelivers` | js/jquery-3.3.1.js:3263-3296 | With nothing queued and callbacks that do not call back, the rest of a firing calls exactly the callbacks behind the firing index, in order. |
| `CallbacksOnce.EmptyWhileFiringLoses` | js/jquery-3.3.1.js:3358-3363 | A concrete run in which a callback added after `empty` is never called. |
| `CallbacksOnce.RemoveAhead` | js/jquery-3.3.1.js:3334-3347 | Removing a callback during a firing, with the firing index moved back, removes exactly its registrations from those still ahead: none is skipped and none runs twice. |
| `CallbacksOnce.WithoutMembers` | js/jquery-3.3.1.js:3334-3340 | Removal keeps exactly the registrations of other callbacks. |
| `CallbacksFifo.FifoDelivery` | js/jquery-3.3.1.js:3255-3402 | For lists that may fire again, without removals, locks and early ends: fires are delivered one after the other in the order of issue, nested ones too; each goes in the order of registration to the callbacks there when their turn comes, and at least to all that were there when it was issued; nothing is lost, and a list with memory also serves callbacks added later. |
| `CallbacksReachable.NextHasArguments` | js/jquery-3.3.1.js:3265-3275 | In every run of every kind of list, when the loop finds a next callback the arguments are there, so that its lack of a test does no harm. |
| `CallbacksOptions.UniqueHoldsOnce` | js/jquery-3.3.1.js:3312-3317 | In every run, calls from inside callbacks included, a list with `unique` never holds a callback twice. |
| `CallbacksOptions.AddedIff` | js/jquery-3.3.1.js:3312-3324 | After `add`, whatever the options, a callback is in the list if and only if it was there before or was given. |
| `CallbacksOptions.AllRegistered` | js/jquery-3.3.1.js:3312-3324 | Without `unique`, each function given is registered in order, as often as it is given. |
| `CallbacksOptions.FalseEndsFiring` | js/jquery-3.3.1.js:3265-3275 | With `stopOnFalse` and nothing queued, a callback that returns `false` ends the firing at once: nobody else is called, and the data are forgotten. |
| `CallbacksOptions.FalseGoesOnWithNext` | js/jquery-3.3.1.js:3263-3275 | Fires that were queued are not affected: the next one starts with the first callback. |
| `CallbacksOptions.FalseIsIgnored` | js/jquery-3.3.1.js:3268-3269 | Without `stopOnFalse` it does not matter what callbacks return. |
| `CallbacksOptions.AddedWithoutMemory` | js/jquery-3.3.1.js:3278-3281 | In every run of a list without `memory`, callbacks added between firings are not called for earlier fires. |
| `CallbacksOptions.OnceCallsWithFirst` | js/jquery-3.3.1.js:3255-3258 | In every run of a list with `once`, whatever its other options, all calls carry the arguments of its first fire. |
| `CallbackList.CallbackList.Loop` | js/jquery-3.3.1.js:3263-3296 | The firing loop on the live variables, up to the next invocation or the end of the firing, does what the step machine does. |
| `CallbackList.CallbackList.Fire` | js/jquery-3.3.1.js:3255-3297 | Starting a firing locks a once list and takes the first queued arguments. |
| `CallbackList.CallbackList.Resume` | js/jquery-3.3.1.js:3265-3275 | The return of a callback; `false` ends the firing and forgets the data when the list stops on false. |
| `CallbackList.CallbackList.Add` | js/jquery-3.3.1.js:3303-3331 | `add` on the live list: duplicates are skipped on unique lists, and a list with memory fires from the first new callback on. |
| `CallbackList.CallbackList.Remove` | js/jquery-3.3.1.js:3334-3347 | `remove` of several callbacks equals removing all registrations of each. |
| `CallbackList.CallbackList.Splice` | js/jquery-3.3.1.js:3337-3344 | The search-and-splice loop removes every registration of the callback, and the firing index ends up lower by the number removed at or before it. |
| `CallbackList.CallbackList.FireWith` | js/jquery-3.3.1.js:3392-3402 | `fireWith` is ignored when locked, only queues during a firing, and fires otherwise. |
| `CallbackList.CallbackList.Lock` | js/jquery-3.3.1.js:3380-3386 | `lock` drops the queue, and spends an idle list without memory. |
| `CallbackList.CallbackList.Disable` | js/jquery-3.3.1.js:3368-3372 | `disable` spends the list, forgets memory and queue, and locks. |
| `CallbackList.CallbackList.Empty` | js/jquery-3.3.1.js:3358-3363 | `empty` clears a live list and leaves the firing index alone. |
| `CallbackList.CallbackList.IndexOf` | js/jquery-3.3.1.js:3337 | The first position of a callback from a given one on, or -1 if and only if there is none. |
| `CallbackList.CallbackList.Has` | js/jquery-3.3.1.js:3351-3355 | The membership test holds if and only if some registration in the list is of the callback. |
| `DeferredSettlement.StateFollowsFirstSettle` | js/jquery-3.3.1.js:3692-3744 | In every run, nested calls included, the state and its arguments are those of the first `resolve` or `reject`, and never change afterwards. |
| `DeferredSettlement.UserCallbacksSeeState` | js/jquery-3.3.1.js:3702-3730 | A done or fail callback, or handler, only ever runs when the state is already the matching one, so that done and fail callbacks never both run. |
| `DeferredSettlement.NoLateNotifications` | js/jquery-3.3.1.js:3719-3743 | A notification issued after the settlement, and told from all others by its arguments, reaches no progress callback and no handler. |
| `DeferredSettlement.ReceivedWasPending` | js/jquery-3.3.1.js:3719-3743 | Whatever a progress callback or handler receives was issued by some `notify` while the deferred was pending. |
| `DeferredSettlement.SettledCallbacksRunOnce` | js/jquery-3.3.1.js:3463-3473 | Once settled and not firing, each callback of the winning kind ran exactly once, in order, with the arguments of the settlement; handlers likewise; the losing kind never ran. |
| `DeferredSettlement.SettleKeeps` | js/jquery-3.3.1.js:3702-3730 | The first settlement, through the six callbacks of the constructor, sets the state, spends the opposite lists, locks the progress lists and runs the handlers before any user callback. |
| `DeferredSettlement.StepKeepsInv` | js/jquery-3.3.1.js:3692-3744 | Every client call and every return of a callback keeps the invariant, and only the first attempt to settle a pending deferred changes the state. |
| `DeferredClients.ClientsAreCalled` | js/jquery-3.3.1.js:3463-3473 | In every run with a settlement, once it is delivered, the calls of the winning list are the callbacks of the constructor and then all callbacks that clients gave to `done` or `fail` before or after, in the order given; likewise the handlers given to `then`; all with the arguments of the first settlement. |
| `DeferredClients.NotificationsAreDelivered` | js/jquery-3.3.1.js:3719-3743 | While a deferred is pending and no notification is under way, all notifications so far have been delivered in order, each to the progress callbacks known at its turn in the order given, and the last one to every callback given so far. |
| `DeferredClients.NotificationsAreHandled` | js/jquery-3.3.1.js:3645-3680 | The same for the progress handlers given to `then`. |
| `DeferredObject.DeferredObject.constructor` | js/jquery-3.3.1.js:3463-3473 | A new deferred: six lists, of which the main ones hold the callbacks of the constructor. |
| `DeferredObject.DeferredObject.Effect` | js/jquery-3.3.1.js:3702-3730 | Each callback of the constructor updates the state or one other list in place. |
| `DeferredObject.DeferredObject.RunBuiltins` | js/jquery-3.3.1.js:3702-3730 | The callbacks of the constructor run in turn up to the first one of the user. |
| `DeferredObject.DeferredObject.Listen` | js/jquery-3.3.1.js:3696-3699 | `progress`, `done` and `fail` on the object, a nested firing included. |
| `DeferredObject.DeferredObject.Fire` | js/jquery-3.3.1.js:3732-3743 | `notify`, `resolve` and `reject` on the object, also from inside its own callbacks. |
| `DeferredObject.DeferredObject.Then` | js/jquery-3.3.1.js:3645-3680 | `then` adds one handler of each kind, which runs at once if the deferred is settled that way. |
| `DeferredObject.DeferredObject.OnMain` | js/jquery-3.3.1.js:3696-3743 | An operation on one of the main lists, with the firing that it may start and nest. |
| `DeferredObject.DeferredObject.CallbackReturns` | js/jquery-3.3.1.js:3265-3275 | When a user callback returns, the innermost firing goes on. |
| `ThenResolution.OutcomeFollowsFirstCalls` | js/jquery-3.3.1.js:3518-3643 | In every run the outcome of the derived deferred is found by following generations: the first call to one either settles it or passes a thenable and hands over to the next one (sections 2.3.3.3.3 and 2.3.3.3.4.1 of Promises/A+). |
| `ThenResolution.FirstCallsDecide` | js/jquery-3.3.1.js:3518-3643 | The same, without following: if there is an outcome, the very first call to some generation said it, and the very first call to each earlier one passed a thenable. |
| `ThenResolution.SettledForGood` | js/jquery-3.3.1.js:3591-3624 | However a run goes on after the derived deferred is settled, the outcome stays and no further notification is delivered. |
| `ThenResolution.StaleChangesNothing` | js/jquery-3.3.1.js:3527-3532 | Calls with `depth < maxDepth` can be left out of any run, and exceptions after a newer thenable was adopted can be replaced by returns, without a difference to the outcome, the notifications or the generations, whatever follows. |
| `ThenResolution.CurrentCallDecides` | js/jquery-3.3.1.js:3518-3643 | From every run without outcome, the call of a resolver of the newest generation, said handler by handler: what a handler returns resolves, what it throws rejects, the promise itself and an unreadable `then` reject with their errors, a thenable makes one deeper generation and nothing else; without a handler the arguments are passed on whole. |
| `ThenResolution.CurrentProgressNotifies` | js/jquery-3.3.1.js:3558-3599 | A notification there passes on exactly what the progress handler returns, or all arguments if there is none, unless that is a thenable or the promise; it never settles and never deepens. |
| `ThenResolution.CurrentExceptionRejects` | js/jquery-3.3.1.js:3600-3625 | An exception of the `then` call that made the newest generation rejects with it. |
| `ThenDelivery.CallbacksReceiveFirstCall` | js/jquery-3.3.1.js:3518-3681 | The deferred that `then` derives stays pending without a decisive call; otherwise its state is what the decisive call said, its callbacks of that kind receive what it passed, once and in order, and the others never run. |
| `ThenDelivery.OutcomeIsFirstAttempt` | js/jquery-3.3.1.js:3591-3624 | Of all that resolvers and catch clauses pass on to the derived deferred, the first counts. |
| `ThenResolution.Resolution.Call` | js/jquery-3.3.1.js:3520-3643 | A call of a resolver on the shared variables: stale calls return, self-resolution and unreadable `then` are caught, thenables deepen, values settle. |
| `ThenResolution.Resolution.Progress` | js/jquery-3.3.1.js:3558-3599 | A call of a progress resolver: it never deepens and never settles. |
| `ThenResolution.Resolution.ThenThrows` | js/jquery-3.3.1.js:3600-3625 | An exception of a `then` call rejects only while no newer thenable has been adopted. |
| `Selectors.CompiledAccepts` | js/jquery-3.3.1.js:2409-2465 | A compiled selector accepts an element if and only if a chain of elements exists, one per compound, linked by the combinators and rooted in the context (section 8 of Selectors Level 3). |
| `Selectors.CollectedAccepts` | js/jquery-3.3.1.js:2433-2462 | The same for every prefix of the tokens: the matchers collected so far accept exactly the ends of such chains. |
| `Selectors.WalkFindsRelated` | js/jquery-3.3.1.js:2217-2269 | The walk of a combinator succeeds if and only if some element related by the combinator is accepted; for child and adjacent sibling only the nearest one counts. |
| `Selectors.CombinatorMeanings` | js/jquery-3.3.1.js:1625-1630 | The four combinators in terms of the document: any ancestor, the nearest one among the elements, any preceding sibling, the nearest one among the elements. |
| `Selectors.ChildOfParent` | js/jquery-3.3.1.js:2215-2224 | The child combinator leads to the parent and nowhere else, where that is an element. |
| `Selectors.MatcherFromTokens` | js/jquery-3.3.1.js:2409-2465 | The compiling loop builds the matcher that the specification describes, and numbers its cache slots. |
| `SelectorCache.Caches.Match` | js/jquery-3.3.1.js:2226-2284 | Whatever earlier queries of the run left in the caches, a query returns what the matcher means and leaves only correct entries. |
| `SelectorCache.Caches.MatchAll` | js/jquery-3.3.1.js:2226-2269 | The memoised walk returns what the uncached walk returns, although the nodes of a walk share one cell and nested walks overwrite slots. |
| `SelectorCache.Caches.MatchUncached` | js/jquery-3.3.1.js:2232-2239 | The walk without caches, as for XML. |
| `SelectorCache.Caches.Visit` | js/jquery-3.3.1.js:2257-2263 | One node of a walk: the shared cell is stored and then filled in, and a failing node does not leave a wrong final result behind. |
| `SelectorCache.Caches.Select` | js/jquery-3.3.1.js:2490-2506 | The elements selected are those that some matcher of the group accepts, in order, whatever caches older runs left. |
| `SelectorCache.CompiledNamed` | js/jquery-3.3.1.js:2208-2213 | Compilation gives every combinator its own cache number. |
| `SelectorCache.CompileGroup` | js/jquery-3.3.1.js:2589-2597 | Each matcher of a compiled group accepts exactly what its selector matches. |
| `SelectorCache.CompileAndSelect` | js/jquery-3.3.1.js:2467-2606 | Compiling a group and selecting with caches returns exactly the elements that match one of the selectors, in document order of the given elements. |
| `NthChild.Parent.Seek` | js/jquery-3.3.1.js:1797-1823 | From any entry that a query of the same run left, with text nodes in between, the loop ends within two passes with the 1-based index among the elements, and leaves a correct entry. |
| `NthChild.Parent.Matches` | js/jquery-3.3.1.js:1757-1876 | The matcher accepts if and only if the index is a*n + b for some n >= 0. |
| `NthChild.CycleTestIff` | js/jquery-3.3.1.js:1874-1876 | The final test, with the remainder of JavaScript and division by zero, holds if and only if the index is a*n + b for some n >= 0 (section 6.6.5.2 of Selectors Level 3). |
| `Escape.EscapeRoundTrip` | js/jquery-3.3.1.js:637-669 | Unescaping an escaped string gives it back if and only if it has no NUL. |
| `Escape.EscapeComesBack` | js/jquery-3.3.1.js:655-669 | With NUL, everything else still comes back, and NUL as U+FFFD. |
| `Escape.EscapeInjective` | js/jquery-3.3.1.js:1536-1538 | Two strings without NUL never have the same escaped form. |
| `Escape.UnescapedNumber` | js/jquery-3.3.1.js:637-652 | A numeric escape of up to six digits, ended by a blank, reads as its character, whatever follows. |
| `Escape.SurrogatePair` | js/jquery-3.3.1.js:649-651 | A numeric escape beyond the basic plane reads as the surrogate pair of its code point. |
| `Escape.EscapedIsIdentifierIff` | js/jquery-3.3.1.js:573-574 | The identifier expression of the tokenizer takes the escaped form as one identifier if and only if the string is not empty, does not start with a digit or dash and digit, and has no control character and nothing from U+0080 to U+00A0. |
| `EscapeLaws.EscapedIsSerialized` | js/jquery-3.3.1.js:653-669 | For all strings the escaped form is the serialization of an identifier, character by character (section 2.1 of CSSOM). |
| `EscapeLaws.NumberUnescaped` | js/jquery-3.3.1.js:637-652 | A backslash and as many hexadecimal digits of either case as follow, up to six, read as the character of that number, and take one blank after them. |
| `EscapeLaws.CharacterUnescaped` | js/jquery-3.3.1.js:637-645 | A backslash before any other character gives the character, except before U+2028 and U+2029, where it stays. |
| `EscapeLaws.OthersUnescaped` | js/jquery-3.3.1.js:637-645 | A character that is no backslash, and a backslash at the end, stay. |
| `EscapeLaws.HexDigitIff` | js/jquery-3.3.1.js:637 | The digits are those of either case, each with its value. |
| `EscapeLaws.HexIsShortest` | js/jquery-3.3.1.js:664 | Numbers are written with lower-case digits and no leading zero. |
| `NestedNamesRoundTrip.PrintParseRoundTrip` | js/jquery.serializejson.js:86-165 | Printing an object of non-empty objects and arrays with string leaves and distinct, non-empty, bracket-free keys, and setting the printed pairs in order, gives it back if and only if (1) nowhere, the root included, an inherited key has an object or array below it, nor is a key `__proto__`; and (2) with `useIntKeysAsArrayIndex`, no object below the root starts with a key of digits only, and without, no array starts with an object or array. |
| `NestedNamesRoundTrip.ConstructorIsLost` | js/jquery.serializejson.js:151 | An object under the key `constructor` does not come back. |
| `NestedNamesRoundTrip.ProtoIsLost` | js/jquery.serializejson.js:129 | A string under the key `__proto__` does not come back. |
| `NestedNamesRoundTrip.DigitsFirstIsLost` | js/jquery.serializejson.js:154-155 | With array indices, an object that starts with the key `0` does not come back. |
| `NestedNamesRoundTrip.ArrayOfObjectsIsLost` | js/jquery.serializejson.js:154-157 | Without array indices, an array of objects does not come back. |
| `NestedNamesRoundTrip.RebuildIff` | js/jquery.serializejson.js:115-165 | The same for every subtree, set in the container that its first key creates. |
| `NestedNamesRoundTrip.PrintedNames` | js/jquery-3.3.1.js:8416-8452 | The printed names, split again, are the key paths of the leaves, in order. |
| `NestedNamesRoundTrip.SplitUnder` | js/jquery.serializejson.js:86-96 | Any bracket-free keys put in brackets behind a name are found again by splitting. |
| `NestedNamesRoundTrip.SplitBracketed` | js/jquery.serializejson.js:86-96 | Splitting a name with one more bracketed key gives one more key. |
| `NestedNamesRoundTrip.SetBelow` | js/jquery.serializejson.js:150-163 | Settings that all go below one missing key first build their value on their own, and then store it. |
| `NestedNamesRoundTrip.ChildLost` | js/jquery.serializejson.js:151 | Settings below an inherited key never reach the tree. |
| `NestedNamesRoundTrip.EntriesSet` | js/jquery.serializejson.js:115-165 | Setting the leaves of the first n entries of an object builds exactly these entries, in order, each with what its leaves build; a string under `__proto__` goes missing, and an entry that goes on below something inherited leaves no result. |
| `NestedNamesRoundTrip.ItemsSet` | js/jquery.serializejson.js:125-148 | Setting the leaves of the first n items builds an array of exactly these items, strings pushed and others at their index. |
| `NestedRecords.RecordsComeBackIff` | js/jquery.serializejson.js:86-165 | The fields of any records of strings, sent as `name[][key]` in order, come back as the same records if and only if (1) the name is not inherited; (2) each record after the first starts with a key that the record before has, or that is inherited; (3) no record starts with `__proto__` or, with array indices, with a key of digits; and (4) all further keys of a record are not inherited. |
| `NestedRecords.EmptyKeySets` | js/jquery.serializejson.js:133-163 | Below an empty key, a value goes into the last element if that is an object or array and lacks the next key or there are more keys, and else into a new element; all other elements stay. |
| `NestedRecords.LastRecordGetsKey` | js/jquery.serializejson.js:109-113 | `["", key]` on an array that ends with an object without that key adds the entry to this object. |
| `NestedRecords.NewRecordGetsKey` | js/jquery.serializejson.js:137-148 | If the last element has the key or inherits it, is no object or array, or is missing, `["", key]` makes a new object with this entry behind it. |
| `NestedRecords.FormBuilds` | js/jquery.serializejson.js:14-29 | Under a name that is not inherited, pairs `name[][key]` build one array, to which each adds its value below an empty key. |
| `NestedPaths.DeepSetThenRead` | js/jquery.serializejson.js:98-165 | A value that `deepSet` has set under several keys is found under these keys. |
| `NestedPaths.SetKeepsOthers` | js/jquery.serializejson.js:129 | Setting a property leaves all other properties of an object as they were. |
| `NestedPaths.LeadingBrackets` | js/jquery.serializejson.js:94 | Names that start with brackets split into the same keys as those without. |
| `NestedPaths.TraditionalPrints` | js/jquery-3.3.1.js:8419-8427 | Traditional printing, and printing below a name that ends in brackets, gives one pair with the same name for each item of an array; objects are printed as they are. |
| `NestedNames.Serializer.BuildParams` | js/jquery-3.3.1.js:8416-8452 | The recursive printing appends exactly the specified pairs to the accumulator, `traditional` and names ending in `[]` included. |
| `NestedNames.Serializer.Param` | js/jquery-3.3.1.js:8456-8489 | Printing an object appends the pairs of its entries in order. |
| `DeepSetInPlace.DeepSet` | js/jquery.serializejson.js:115-165 | `deepSet` on mutable objects and arrays turns the tree under `o` into the specified one, keeps it a tree of separate nodes, and fails exactly when the specification has no result. |
| `DeepSetInPlace.SetInChild` | js/jquery.serializejson.js:161-163 | Setting inside one child leaves the trees of all other children as they were. |
| `DeepSetInPlace.Below` | js/jquery.serializejson.js:150-159 | A value that is missing and not inherited becomes an empty array or object, depending on the next key; one that is there is kept. |
| `DeepSetInPlace.SetDeep` | js/jquery.serializejson.js:150-163 | With more keys, the rest is set inside what is at the key, or in what is made there; and fails below strings and inherited properties. |
| `DeepSetInPlace.SetOne` | js/jquery.serializejson.js:125-130 | With one key, the value is set in place, except on the prototype. |
| `DeepSetInPlace.Node.LastOrNext` | js/jquery.serializejson.js:137-148 | The key that an empty one stands for in place is the one that the specification takes: the last index, if the last element is an object or array without the next key or one to go deeper into, and else the one behind it. |
| `DeepSetInPlace.SerializeJSON` | js/jquery.serializejson.js:14-29 | Setting all pairs in place gives the tree that the round trip is proved about. |
| `TimeScale.Lookup` | js/Chart.js:14057-14081 | The binary search ends, on a segment that the value belongs to, before the first or after the last entry included. |
| `TimeScale.Interpolate` | js/Chart.js:14089-14101 | Interpolating by binary search equals interpolating on the first segment that a linear search finds. |
| `TimeScale.SegmentIrrelevant` | js/Chart.js:14089-14101 | Where segments meet, it does not matter which one the search returns. |
| `TimeScale.InterpolationIncreases` | js/Chart.js:14089-14101 | For a table rising in time and position, interpolation is strictly increasing on all reals, in both directions. |
| `TimeScale.InterpolationInverts` | js/Chart.js:14083-14101 | Position to time undoes time to position, and the other way round, extrapolation included. |
| `LookupTable.BuildLookupTable` | js/Chart.js:14021-14054 | The loop builds the table of the items that break linearity, or the two ends; what its items and positions are is stated by the next five rows. |
| `LookupRanks.ItemsIff` | js/Chart.js:14030-14040 | For any timestamps, the items are exactly the two ends and the timestamps strictly between. |
| `LookupRanks.ItemRank` | js/Chart.js:14033-14038 | For rising timestamps, the index of an inner item is the number of inner timestamps up to it. |
| `LookupRanks.FullTableSpreads` | js/Chart.js:14017-14018 | The full table puts each inner timestamp at the number of inner timestamps up to it, over one more than there are: timestamps lie at the same distance from each other. |
| `LookupRanks.BuiltTableSpreads` | js/Chart.js:14021-14054 | So does the table that is built, where only exact midpoints are left out. |
| `LookupRanks.BuiltTableEntries` | js/Chart.js:14042-14051 | Whatever is left out, the table has exactly the entries of the items whose neighbours do not have them as their rounded mean, each with its rank as position. |
| `LookupTable.BuiltTableIsTable` | js/Chart.js:14021-14054 | For timestamps in strictly rising order and min < max the table rises in time and position, from (min, 0) to (max, 1). |
| `LookupTable.CompressionIsExactIff` | js/Chart.js:14042-14051 | The compressed table interpolates like the full one for every real if and only if each dropped item is the exact midpoint of its neighbours. |
| `LookupTable.DropKeeps` | js/Chart.js:14047-14050 | Dropping an entry on the line of its neighbours changes no interpolated value. |
| `LookupTable.AgreementShowsMidpoint` | js/Chart.js:14047-14050 | Conversely, if the tables agree everywhere, each dropped item is a midpoint. |
| `LookupTable.CompressedIsTable` | js/Chart.js:14042-14053 | Whatever is dropped, the table rises in time and position and keeps both ends. |
| `LookupTable.RoundingLosesItem` | js/Chart.js:14048 | A concrete list of items of which one is dropped although it is no midpoint. |
| `Spline.IntervalIsLimited` | js/Chart.js:10527-10551 | After the one forward pass, every interval between drawn points has tangents of its slope's sign with alpha^2 + beta^2 <= 9, or both zero where the slope is below EPSILON, although each step rewrites a tangent of the previous interval. |
| `Spline.ControlsInBox` | js/Chart.js:10553-10573 | Hence both control points of every segment lie in the box spanned by its two points. |
| `SplineCurve.CurveIsMonotone` | js/Chart.js:10484-10574 | The drawn curve preserves monotonicity: along each segment x moves evenly, and y between any two parameters only rises if the next point is higher and only falls if it is lower, so that there is no extremum between points. |
| `SplineCurve.NeverTurns` | js/Chart.js:10541-10546 | The inequality behind it: for relative tangents alpha, beta >= 0 with alpha^2 + beta^2 <= 9 the derivative has the sign of the slope. |
| `Spline.AdjustLimits` | js/Chart.js:10536-10550 | One adjustment limits its interval and only shrinks the two tangents towards zero. |
| `Spline.AdjustScales` | js/Chart.js:10541-10550 | Tangents outside the circle of radius 3 end up on it, in the same direction. |
| `Spline.StepLimits` | js/Chart.js:10529-10551 | A step keeps all earlier intervals limited. |
| `Spline.PassShrinks` | js/Chart.js:10527-10551 | The whole pass only shrinks tangents, and leaves tangents that are already limited as they are. |
| `Spline.AdjustTangents` | js/Chart.js:10527-10551 | The loop over the tangent array computes the pass of the specification. |
| `Spline.InitTangents` | js/Chart.js:10498-10525 | The first loop leaves in the arrays, in terms of coordinates: for each drawn point the slope to the next drawn one, 0 straight up; and as first tangent the mean of the slopes before and behind if they have the same sign, 0 if not, and the one slope there is next to a gap or an end. |
| `SplineTangents.ReversedTangents` | js/Chart.js:10498-10525 | Reversing the points keeps all first tangents. |
| `SplineTangents.ParabolaTangents` | js/Chart.js:10516-10524 | Evenly spaced samples of a parabola that go on rising or falling have its derivative as first tangent. |
| `Spline.ComputeControls` | js/Chart.js:10553-10573 | The last loop sets the control points on both sides of each point, a third of the way to its neighbour and on the line of its tangent, and nothing else. |
| `Spline.SplineCurveMonotone` | js/Chart.js:10484-10574 | The three loops together give each point the control points of the limited tangents. |
| `Layout.Update` | js/Chart.js:7278-7362 | For any sizes that boxes ask for, sides and chart area fill the outer size, and each side is the larger of padding plus its boxes and the padding asked for. Each box has its counted size across; it stands off the chart area by the sizes of the boxes between, and runs exactly along the chart area, or from padding to padding if it is horizontal with `fullWidth`. If the chart area is not negative, all boxes lie inside the user's padding, off the chart area and off each other. |
| `Layout.FitBoxes` | js/Chart.js:7119-7146 | Fitting counts every box once at its side, keeps the sum at each side, the balance of width and height, and the largest padding. |
| `Layout.UpdateDims` | js/Chart.js:7057-7087 | One box replaces its old size by the new one at its side; no change is ever reported. |
| `Layout.HandleMaxPadding` | js/Chart.js:7089-7101 | Each side grows to the padding asked for, and the placing position moves with it. |
| `Layout.PlaceBoxes` | js/Chart.js:7148-7176 | Each box is placed behind the boxes placed before it at its side, with matching dimensions; where that is, is stated in the row of `Layout.Update`. |
| `Layout.PlacedIsLaidOut` | js/Chart.js:7148-7176 | Boxes placed at the four sides stay in their bands, inside the padding, and do not overlap. |
| `Layout.WidenedSides` | js/Chart.js:7278-7362 | After widening, the sides cover padding and boxes, and placing the first corner ends at the chart area. |
| `Layout.WidestIsLeast` | js/Chart.js:7069-7075 | The combined padding is at least every padding asked for and is one of them. |
| `Routes.DeriveBFS` | js/Chart.js:1071-1112 | `distance` is the length of a shortest path, and -1 exactly for unreachable models; each parent is one step nearer. |
| `Routes.FinishedIsShortest` | js/Chart.js:1089-1112 | When the queue is empty, parents that step down by one and relaxed edges make all distances shortest. |
| `Routes.RelaxedBound` | js/Chart.js:1089-1112 | No path is shorter than the distance recorded for its end. |
| `Routes.ParentsMakePath` | js/Chart.js:1103-1107 | Parents lead back along a path of exactly the recorded distance. |
| `Routes.WrapConversion` | js/Chart.js:1120-1133 | The loop ends with a path of distance + 1 models from source to target, and a function that is the composition of the direct conversions along it. |
| `Routes.Route` | js/Chart.js:1135-1153 | Exactly the reachable other models get a conversion. |
| `Filler.ResolveTarget` | js/Chart.js:14926-14955 | The loop with its list of visited sources computes the specified target, on cyclic chains too; without `propagate` the fill as it is. |
| `Filler.ResolvedIffEnds` | js/Chart.js:14936-14952 | The result is a given target if and only if the chain of fills ends there, seen without any list of visited sources, and it is not the source itself. |
| `Filler.ResolvedShape` | js/Chart.js:14926-14955 | The result is false, a boundary, or the index of a visible source other than the one asked about. |
| `Filler.OrderIrrelevant` | js/Chart.js:15085-15094 | Resolving a source after all earlier ones were overwritten in place gives what the original fills give. |
| `Filler.ResolveAll` | js/Chart.js:15085-15094 | The loop in place leaves every source with its target according to the original fills. |
| `DataSync.InSyncIffSafe` | js/Chart.js:4075-4107 | From elements that match the data, a hooked call keeps each element with its datum if and only if it is safe: always, except for a `splice` that inserts at a negative place or beyond the end, or one without a count that deletes something. |
| `DataSync.RunInSync` | js/Chart.js:3551-3586 | After any run of safe calls every element has been made for the datum at its place. |
| `DataSync.LengthsKept` | js/Chart.js:4075-4107 | Every hooked call with a count keeps as many elements as data, wherever it splices. |
| `DataSync.ArrayMethods` | js/Chart.js:3541 | What the hooked methods do to the array: which elements each replaces, with negative, large and missing arguments of `splice`. |
| `DataSync.InsertedInside` | js/Chart.js:4066-4070 | Inserting inside the elements puts the new ones in one block and keeps the others in order. |
| `DataSync.BeyondTheEnd` | js/Chart.js:4097-4100 | A concrete `splice` beyond the end after which elements belong to the wrong datum or to none. |
| `DataSync.Controller.Invoke` | js/Chart.js:3551-3586 | A hooked call alters the array first and the elements then. |
| `DataSync.Controller.InsertElements` | js/Chart.js:4066-4070 | The loop inserts one element after the other; a negative count inserts none. |
| `DataSync.Controller.AddElementAndReset` | js/Chart.js:3778-3782 | The element made for an index ends up at that index, or last if the index is too large, or counted from the end if it is negative; all other elements stay in order. |
| `DataSync.Controller.Resync` | js/Chart.js:4049-4061 | From any state there are as many elements as data again; those kept are the first ones, and new ones are made for their data. |
| `DataSync.Controller.constructor` | js/Chart.js:3764-3776 | At first there is one element for each datum. |
| `Color.HslRoundTrip` | js/Chart.js:231-269 | RGB to HSL and back is the identity for all channels in [0, 255] (section 4.2.4 of CSS Color Module Level 3). |
| `Color.HsvRoundTrip` | js/Chart.js:271-314 | RGB to HSV and back is the identity for all channels in [0, 255]. |
| `Color.HwbRoundTrip` | js/Chart.js:316-326 | RGB to HWB and back is the identity for all channels in [0, 255]. |
| `Color.WheelAtHue` | js/Chart.js:231-269 | Every colour that is not grey lies at its hue on the colour wheel, in all six sectors and on their borders. |
| `Color.HslIsWheel` | js/Chart.js:428-475 | For any hue, saturation and lightness `hsl.rgb` gives a point of the wheel between its two extremes. |
| `Color.FromHsvIsWheel` | js/Chart.js:495-521 | The same for `hsv.rgb`. |
| `Color.HwbIsWheel` | js/Chart.js:543-584 | The same for `hwb.rgb`, with whiteness and one minus blackness as extremes. |
| `Color.HwbOverfull` | js/Chart.js:547-557 | Whiteness and blackness of more than 100 per cent give the grey of their proportion. |
| `Color.ConvertHslToRgb` | js/Chart.js:428-475 | The loop over the three channels, a third of a turn apart, computes the conversion that the round trip is proved about. |
| `Color.HuesAgree` | js/Chart.js:231-326 | HSL, HSV and HWB all speak of the same hue, though computed differently. |
| `Color.Primaries` | js/Chart.js:271-314 | Red, green and blue have hues 0, 120 and 240, and full saturation and value. |
| `Color.Greys` | js/Chart.js:231-326 | A grey has hue and saturation 0, and its share of white as lightness, value and whiteness. |

## Left out

- DOM, canvas, CSS, Ajax, animation timers and browser feature tests: documents are finite trees, and element tests arbitrary functions of the element.
- Callbacks that throw: a callback list does not catch, and an exception leaves it firing.
- Nested argument arrays of `add`: the model takes the flattened list of functions.
- `pipe`, `when`, `always`, and the hooks for stack traces and exceptions.
- `setTimeout` before the handlers of `then`: the order of calls is arbitrary anyway.
- Reading the `then` of a returned object is one step: a getter that itself calls resolvers is not modelled.
- ThenResolution.Resolution.Progress: an exception of a progress handler goes to whoever called `notify`; the model only says that it changes nothing here.
- Positional pseudos, `setMatcher`, nested `:not` and `:has`, and the `legend` skip of `addCombinator`, which change run counters or the walk.
- The regular expressions of the tokenizer, except the identifier: selectors start as token lists.
- The per-node cache of `:nth-last-child`: it starts seeking before the element, so that cached values depend on the order of queries.
- Properties that other code adds to the prototypes of objects and arrays: the inherited names are those of ECMAScript 2018.
- What is written below something inherited: `deepSet` changes it or throws, and the model has no result then.
- Named properties on arrays, and array indices from 2^32 - 1 on.
- The order in which JavaScript enumerates integer keys: entries are listed in the order of enumeration.
- NestedNamesRoundTrip.PrintParseRoundTrip: empty objects and arrays print nothing and cannot come back; leaves are strings.
- Checkbox handling, value parsing and URI encoding in the serializers.
- Layout.Update: the size hints given to `box.update`, sorting by weight, and boxes inside the chart area.
- Layout.FitBoxes: the refit of earlier boxes, which no call ever reaches.
- Empty names of colour models, which the route loop would take for the end of a path; rounding and argument lists of the public wrappers.
- HCG, Lab, LCH, XYZ, CMYK and the other colour models.
- Floating-point rounding and NaN: a square root is known by its equation only.
- The pixel positions of the time scale, whose two directions use different offsets and are not inverse.
- DataSync.Controller.Invoke: several listeners on one array, and changes that bypass the hooks, other than through the resynchronisation.
- `niceNum` and the tick generators.
- `js/custom.js`, the Apache headers, `App.java` and the notes: glue, declarations or prose.

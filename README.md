# Design-pattern examples in Dafny

This project models four files, about twenty classes, of a small Java collection of design-pattern examples and proves what each one promises.

- **Builder** (`creational/Builder.java`) covers several ways to assemble a drink record: telescoping constructors, a JavaBean with setters, and a fluent builder whose setters return the builder itself. It also covers the static inner builder of `Whiskey`, and a `Director` that renders a `Wine` in three formats. The formats are plain text, JSON-like and XML-like, and the output is the format's head, then its body, then its foot.
- **Flyweight** (`structural/Flyweight.java`) covers a factory that caches shared flyweights in a `HashMap` by key and creates an entry only for a key it has not seen. It also covers an unshared flyweight that never enters the cache.
- **Composite** (`structural/Composite.java`) covers leaves and composites behind one `Component` interface. A composite keeps an ordered child list, and its `operation` prints its own line and then, recursively, each child's output. The example's `main` makes a composite that holds itself.
- **Proxy** (`structural/Proxy.java`) covers four proxies in front of a `RealSubject`:
  - a normal proxy;
  - a virtual proxy that creates its subject lazily;
  - a protection proxy gated by an `access` flag;
  - a logging proxy.

Values are modelled as datatypes and objects that are updated in place as classes:

- `System.out` is a `Console` object whose `lines` trace grows with each `println`.
- A Java `String` reference is a `JString`, which is either `Null` or a character sequence. `Show` renders `null` as the text "null", as string concatenation and `StringBuilder.append` do.
- `int` is the 32-bit `int32`. `IntToString` is `Integer.toString`, and it is proved to read back as the same number.

Module `JavaLang` (`java_lang.dfy`) holds these platform pieces. Modules `Builder`, `Flyweight`, `Composite` and `Proxy` follow the Java files one to one.

`CompositeC.operation` recurses through a child list that can contain cycles. Its model takes a ghost `rank` map from composites to numbers, which must fall from every ranked composite to each composite child. A composite with a rank cannot reach itself, so `operation` terminates, and the composite that holds itself can have no rank.

## Model

| member | source | states |
|---|---|---|
| JavaLang.Show | src/main/java/com/pattern/creational/Builder.java:295 | the text a `String` reference contributes when appended: "null" for a null reference, its characters otherwise. It is a definition; Builder.NullNamePrintsAsText states its consequence for the director |
| JavaLang.Console.PrintLn | src/main/java/com/pattern/structural/Proxy.java:70 | `System.out.println` adds exactly the given line at the end of the console trace and changes nothing else |
| JavaLang.IntToString | src/main/java/com/pattern/creational/Builder.java:297 | `StringBuilder.append(int)`: the text has only digits and at most a leading minus sign, and starts with '-' exactly when the number is negative |
| JavaLang.DigitsRoundTrip | src/main/java/com/pattern/creational/Builder.java:297 | the decimal digits of a natural number read back as that number |
| JavaLang.IntToStringRoundTrip | src/main/java/com/pattern/creational/Builder.java:297 | parsing `Integer.toString(n)` gives back `n`, for every 32-bit `n` |
| JavaLang.IntToStringInjective | src/main/java/com/pattern/creational/Builder.java:297 | two different `int` values never print alike |
| Builder.AlcoholicDrinkWithoutSake | src/main/java/com/pattern/creational/Builder.java:79-84 | the four-argument constructor stores its four arguments, and `sake` keeps its default of null |
| Builder.AlcoholicDrinkWithBeer | src/main/java/com/pattern/creational/Builder.java:86-90 | the three-argument constructor stores its three arguments, and `wine` and `sake` stay null |
| Builder.TelescopingChain | src/main/java/com/pattern/creational/Builder.java:71-90 | each shorter constructor equals the next longer one given null for the argument it omits |
| Builder.AlcoholicDrinkByJavaBean.constructor | src/main/java/com/pattern/creational/Builder.java:106 | the no-argument constructor leaves all five fields null |
| Builder.AlcoholicDrinkByJavaBean.SetSoju | src/main/java/com/pattern/creational/Builder.java:108-110 | sets `soju`; the frame allows no other field to change |
| Builder.AlcoholicDrinkByJavaBean.SetWhiskey | src/main/java/com/pattern/creational/Builder.java:112-114 | sets `whiskey` and nothing else |
| Builder.AlcoholicDrinkByJavaBean.SetBeer | src/main/java/com/pattern/creational/Builder.java:116-118 | sets `beer` and nothing else |
| Builder.AlcoholicDrinkByJavaBean.SetWine | src/main/java/com/pattern/creational/Builder.java:120-122 | sets `wine` and nothing else |
| Builder.AlcoholicDrinkByJavaBean.SetSake | src/main/java/com/pattern/creational/Builder.java:124-126 | sets `sake` and nothing else |
| Builder.ToStringDistinguishesFields | src/main/java/com/pattern/creational/Builder.java:148-156 | `Drink.toString` lists the fields in a fixed order, each in its own quoted slot: two drinks whose field texts contain no quote print alike only if each field prints alike |
| Builder.AlcoholicDrinkByBuilder.constructor | src/main/java/com/pattern/creational/Builder.java:165-170 | a new builder has all five fields null |
| Builder.AlcoholicDrinkByBuilder.Soju | src/main/java/com/pattern/creational/Builder.java:173-176 | sets only `soju` and returns the same builder |
| Builder.AlcoholicDrinkByBuilder.Whiskey | src/main/java/com/pattern/creational/Builder.java:178-181 | sets only `whiskey` and returns the same builder |
| Builder.AlcoholicDrinkByBuilder.Beer | src/main/java/com/pattern/creational/Builder.java:183-186 | sets only `beer` and returns the same builder |
| Builder.AlcoholicDrinkByBuilder.Wine | src/main/java/com/pattern/creational/Builder.java:188-191 | sets only `wine` and returns the same builder |
| Builder.AlcoholicDrinkByBuilder.Sake | src/main/java/com/pattern/creational/Builder.java:193-196 | sets only `sake` and returns the same builder |
| Builder.AlcoholicDrinkByBuilder.Build | src/main/java/com/pattern/creational/Builder.java:198-200 | the built `Drink` has exactly the builder's five current fields |
| Builder.ChainLastSetWins | src/main/java/com/pattern/creational/Builder.java:173-200 | in a chain that sets soju twice, the last value wins, and fields never set are null in the built drink |
| Builder.WhiskeyBuilder.constructor | src/main/java/com/pattern/creational/Builder.java:215-217 | an unset `Whiskey.Builder` has Java's defaults: null name and year 0 |
| Builder.WhiskeyBuilder.Name | src/main/java/com/pattern/creational/Builder.java:219-222 | sets only the name and returns the same builder |
| Builder.WhiskeyBuilder.Year | src/main/java/com/pattern/creational/Builder.java:224-227 | sets only the year and returns the same builder |
| Builder.WhiskeyBuilder.Build | src/main/java/com/pattern/creational/Builder.java:230-239 | the whiskey has the builder's name and year, copied by the private constructor |
| Builder.WhiskeyYearDefaultsToZero | src/main/java/com/pattern/creational/Builder.java:215-239 | a whiskey built without setting the year has year 0 |
| Builder.WineBuilder.Head | src/main/java/com/pattern/creational/Builder.java:286-352 | the head of each format: empty for plain text, "{\n" for JSON, the XML prolog and `<WINE>` for XML. It is a definition; Builder.PlainTextOutput, Builder.JSONOutput and Builder.XMLOutput state what the director's output then is |
| Builder.WineBuilder.Body | src/main/java/com/pattern/creational/Builder.java:291-366 | the body of each format, built from the printed name and the year in decimal. It is a definition; Builder.PlainTextBodyDistinguishes, Builder.JSONBodyDistinguishes and Builder.XMLBodyDistinguishes state that it loses no information |
| Builder.WineBuilder.Foot | src/main/java/com/pattern/creational/Builder.java:303-371 | the foot of each format: empty for plain text, "\n}" for JSON, "\n</WINE>" for XML. It is a definition; the three output lemmas state where it sits in the output |
| Builder.Director.Build | src/main/java/com/pattern/creational/Builder.java:381-390 | the output is the head, then the body, then the foot, each at its own position and nothing else |
| Builder.PlainTextOutput | src/main/java/com/pattern/creational/Builder.java:286-305 | plain text has an empty head and foot; the output is "Name : ", the name, "\|\| Year : " and the year in decimal |
| Builder.JSONOutput | src/main/java/com/pattern/creational/Builder.java:316-335 | JSON output starts with "{\n", ends with "\n}", and between them holds the quoted name line and the year line |
| Builder.XMLOutput | src/main/java/com/pattern/creational/Builder.java:345-371 | XML output starts with the `<?xml … ?>` prolog and `<WINE>`, ends with "\n</WINE>", and wraps the name in `<NAME>…<NAME>` and the year in `<YEAR>…<YEAR>`, as written |
| Builder.SameOutputSameBody | src/main/java/com/pattern/creational/Builder.java:381-390 | within one format, equal director output means equal body, since head and foot do not depend on the wine |
| Builder.PlainTextBodyDistinguishes | src/main/java/com/pattern/creational/Builder.java:291-300 | equal plain-text bodies mean equal printed names and equal year texts |
| Builder.JSONBodyDistinguishes | src/main/java/com/pattern/creational/Builder.java:321-330 | equal JSON bodies mean equal printed names and equal year texts |
| Builder.XMLBodyDistinguishes | src/main/java/com/pattern/creational/Builder.java:355-366 | equal XML bodies mean equal printed names and equal year texts |
| Builder.RenderDistinguishesWines | src/main/java/com/pattern/creational/Builder.java:279-390 | in every format the director's output loses nothing: two wines render alike only if their names print alike and their years are equal |
| Builder.NullNamePrintsAsText | src/main/java/com/pattern/creational/Builder.java:291-300 | the exception to the above: a null name and the name "null" render identically in every format |
| Flyweight.FlyweightObject.ConcreteFlyweight | src/main/java/com/pattern/structural/Flyweight.java:53-55 | a shared flyweight keeps its intrinsic state |
| Flyweight.FlyweightObject.UnsharedConcreteFlyweight | src/main/java/com/pattern/structural/Flyweight.java:64-66 | an unshared flyweight keeps its unique state |
| Flyweight.FlyweightObject.Render | src/main/java/com/pattern/structural/Flyweight.java:58-60 | `render` prints one line made of its kind's text, its state and the extrinsic state |
| Flyweight.RenderLine | src/main/java/com/pattern/structural/Flyweight.java:58-70 | the line `render` prints: the kind's text, the state and the extrinsic state. It is a definition; Flyweight.RenderLineTellsKind states that the kinds never print alike |
| Flyweight.LookupMessage | src/main/java/com/pattern/structural/Flyweight.java:78-83 | the line `getFlyweight` logs: the "new key" text or the "reuse" text, then the key. It is a definition; Flyweight.LookupMessageTellsCreation states which one is printed when |
| Flyweight.RenderLineTellsKind | src/main/java/com/pattern/structural/Flyweight.java:58-70 | a shared and an unshared flyweight never print the same render line |
| Flyweight.LookupMessageTellsCreation | src/main/java/com/pattern/structural/Flyweight.java:78-83 | the log line is the "new key" line exactly when the key was not cached, and the "reuse" line otherwise |
| Flyweight.FlyweightFactory.constructor | src/main/java/com/pattern/structural/Flyweight.java:75 | the cache starts empty |
| Flyweight.FlyweightFactory.GetFlyweight | src/main/java/com/pattern/structural/Flyweight.java:77-85 | afterwards the key is cached and the result is its entry, a shared flyweight whose state is the key. A cached key leaves the map alone and returns the old object. A new key adds exactly one fresh entry, so the size grows by one and other keys keep their entries. One matching log line is printed, and the invariant that every entry is stored under its own state is kept |
| Flyweight.LookupTwice | src/main/java/com/pattern/structural/Flyweight.java:21-23 | a second lookup of the same key returns the identical object, adds no key, and logs the reuse line |
| Flyweight.RenderUnshared | src/main/java/com/pattern/structural/Flyweight.java:31-32 | an unshared flyweight is never an entry of the factory's cache |
| Flyweight.LookupAll | src/main/java/com/pattern/structural/Flyweight.java:77-85 | calling `getFlyweight` on each key of a run, in order, leaves the cache holding `KeysAfter` of its old keys and grows it by `Creations` entries, keeping the factory's invariant |
| Flyweight.KeysAfterRun | src/main/java/com/pattern/structural/Flyweight.java:77-85 | the keys `KeysAfter` gives, which Flyweight.LookupAll shows a run of lookups leaves in the cache, are exactly the keys asked for, in addition to those cached before |
| Flyweight.OneCreationPerNewKey | src/main/java/com/pattern/structural/Flyweight.java:78-80 | `Creations`, by which Flyweight.LookupAll shows a run of lookups grows the cache, is one per distinct key that was not cached before, however often each key is asked for |
| Composite.CallLine | src/main/java/com/pattern/structural/Composite.java:65 | the line `this + " call"` prints: the class name, "@", the identity hash and " call". It is a definition used by both kinds of component |
| Composite.Leaf.Operation | src/main/java/com/pattern/structural/Composite.java:64-66 | a leaf prints exactly one line, its own |
| Composite.CompositeC.constructor | src/main/java/com/pattern/structural/Composite.java:73 | a new composite has no children |
| Composite.CompositeC.Add | src/main/java/com/pattern/structural/Composite.java:75-77 | appends the component at the end; earlier children keep their order |
| Composite.CompositeC.Remove | src/main/java/com/pattern/structural/Composite.java:79-81 | the child list becomes the list with its first occurrence of the component removed, compared by identity |
| Composite.RemoveFirst | src/main/java/com/pattern/structural/Composite.java:80 | the list `ArrayList.remove(Object)` leaves. It is a definition; Composite.RemoveFirstSpec and Composite.RemoveFirstMultiset state its properties |
| Composite.RemoveFirstSpec | src/main/java/com/pattern/structural/Composite.java:79-81 | `ArrayList.remove(Object)`: an absent element leaves the list unchanged; otherwise exactly the first occurrence is cut out and the rest keeps its order |
| Composite.IndexOf | src/main/java/com/pattern/structural/Composite.java:80 | the position `remove` searches for is within the list and holds the component, or is the list's length when there is none |
| Composite.IndexOfIsFirst | src/main/java/com/pattern/structural/Composite.java:80 | no earlier position holds the component, so the occurrence found is the first |
| Composite.IndexOfFinds | src/main/java/com/pattern/structural/Composite.java:80 | the search finds a position exactly when the component is in the list |
| Composite.RemoveFirstMultiset | src/main/java/com/pattern/structural/Composite.java:79-81 | removing takes out exactly one copy of the component and keeps every other child |
| Composite.Trace | src/main/java/com/pattern/structural/Composite.java:64-89 | the lines `operation` prints for a component: a leaf's own line, or a composite's own line followed by its children's output. It is a definition; Composite.CompositeC.Operation and Composite.RunOperation state that `operation` prints it |
| Composite.ListTrace | src/main/java/com/pattern/structural/Composite.java:88 | the output of `forEach(Component::operation)` over a child list: each child's trace in list order. It is a definition; Composite.ListTraceAppend states how it splits |
| Composite.CompositeC.Operation | src/main/java/com/pattern/structural/Composite.java:83-89 | for a ranked composite, the output is the pre-order trace: its own line, then each child's output in list order |
| Composite.RunOperation | src/main/java/com/pattern/structural/Composite.java:88 | a call through the `Component` interface prints that component's trace |
| Composite.ListTraceAppend | src/main/java/com/pattern/structural/Composite.java:88 | the output of a concatenated child list is the output of its parts |
| Composite.TraceLower | src/main/java/com/pattern/structural/Composite.java:83-89 | the output of a component ranked below a composite depends only on the composites ranked below it, so it is unaffected by changes to that composite's own list |
| Composite.AddThenTrace | src/main/java/com/pattern/structural/Composite.java:75-89 | after `add(component)` on a ranked composite, with the component ranked below it, the rank stays valid and the composite prints what it printed before, followed by the output of the component |
| Composite.TraceStartsWithOwnLine | src/main/java/com/pattern/structural/Composite.java:64-85 | every trace starts with the component's own line |
| Composite.RankFallsAlongPath | src/main/java/com/pattern/structural/Composite.java:83-89 | along any chain of composites from a ranked one, ranks fall by at least one per step, so no such chain returns to its start |
| Composite.SelfHoldingHasNoRank | src/main/java/com/pattern/structural/Composite.java:27 | a composite that holds itself has no rank, so its `operation` is never covered; run on it, `operation` would not return |
| Composite.MainScenario | src/main/java/com/pattern/structural/Composite.java:17-41 | `main` builds a composite that holds itself, yet `compositeC1.operation()` prints just two lines, its own and `leaf1`'s |
| Proxy.Events | src/main/java/com/pattern/structural/Proxy.java:69-148 | the lines one `action` call prints, for each implementation of `ISubject`. It is a definition; the `Action` methods state that they print it, and Proxy.DelegatesOnce, Proxy.DelegationComesFirst and Proxy.LoggingBrackets state its properties |
| Proxy.DelegatesOnce | src/main/java/com/pattern/structural/Proxy.java:67-148 | every subject prints the real subject's line unaltered, exactly once when it delegates and not at all when a protection proxy refuses |
| Proxy.CountAppend | src/main/java/com/pattern/structural/Proxy.java:100-108 | the counting step behind Proxy.RepeatedDelegation and Proxy.DelegatesOnce: the occurrences of a line in two consecutive stretches of output add up |
| Proxy.DelegationComesFirst | src/main/java/com/pattern/structural/Proxy.java:83-148 | a proxy prints a line of its own exactly when it delegates, that line comes after the real subject's, and it differs from it |
| Proxy.LoggingBrackets | src/main/java/com/pattern/structural/Proxy.java:141-148 | the logging proxy's output starts with "Logging Start" and ends with "Logging End", neither of which is the real subject's line |
| Proxy.RealSubject.Action | src/main/java/com/pattern/structural/Proxy.java:69-71 | the real subject prints its one line |
| Proxy.NormalProxy.constructor | src/main/java/com/pattern/structural/Proxy.java:79-81 | the normal proxy wraps the given subject |
| Proxy.NormalProxy.Action | src/main/java/com/pattern/structural/Proxy.java:83-86 | delegates, then prints its own line |
| Proxy.VirtualProxy.constructor | src/main/java/com/pattern/structural/Proxy.java:95-98 | a virtual proxy starts with no real subject and has created none |
| Proxy.VirtualProxy.Action | src/main/java/com/pattern/structural/Proxy.java:100-108 | creates a fresh real subject only when there is none, and keeps the existing one otherwise. Afterwards a subject is present, and at most one has ever been created. Then it delegates and prints its own line |
| Proxy.ActionTimes | src/main/java/com/pattern/structural/Proxy.java:100-108 | over `n > 0` calls on one virtual proxy exactly one real subject exists and is kept; the output is `n` copies of one call's lines |
| Proxy.RepeatedDelegation | src/main/java/com/pattern/structural/Proxy.java:100-108 | over `n` calls the real subject acts exactly `n` times |
| Proxy.ProtectionProxy.constructor | src/main/java/com/pattern/structural/Proxy.java:116-121 | the protection proxy holds the given subject and access flag |
| Proxy.ProtectionProxy.Action | src/main/java/com/pattern/structural/Proxy.java:123-129 | without access it prints nothing; with access it delegates and then prints the line that reads "VirtualProxy -> 프록시 객체 call" |
| Proxy.LoggingProxy.constructor | src/main/java/com/pattern/structural/Proxy.java:136-139 | the logging proxy wraps the given subject |
| Proxy.LoggingProxy.Action | src/main/java/com/pattern/structural/Proxy.java:141-148 | prints "Logging Start", the real subject's line, its own line and "Logging End", in that order |
| Proxy.MainScenario | src/main/java/com/pattern/structural/Proxy.java:34-46 | `main` prints the normal, virtual and logging proxies' lines in that order, and nothing for the protection proxy that is denied access |

## Left out

- Console output is a trace of lines in a `Console` object: no I/O, no encoding, no flushing.
- The identity hash codes that `Object.toString` prints for leaves and composites are chosen by the runtime. Each node carries its hash as an abstract string.
- Null object references are excluded by the types: `Component` and `RealSubject` values are never null, so the following Java behaviour is not represented:
  - a `ProtectionProxy` without access never touches its subject, so one built with a null subject prints nothing and does not throw;
  - a `LoggingProxy` with a null subject prints "Logging Start" and then throws a `NullPointerException` when it delegates;
  - `add(null)` and `remove(null)` on a composite succeed, and the `NullPointerException` comes only when `operation` reaches the null child;
  - a `NormalProxy` with a null subject throws at once, before printing anything; the `VirtualProxy` always creates its own subject, so it has no such case.
- Null `String` values are modelled, including a null `HashMap` key, which `HashMap` accepts.
- Composite.CompositeC.Operation: only composites with a rank are covered. The model does not prove the converse, that every composite from which no cycle is reachable has a rank, and it does not model the stack overflow that `operation` on `compositeC2` would cause.
- Composite.CompositeC.Operation: `forEach` over an `ArrayList` that a child modifies during the loop would throw `ConcurrentModificationException`. Children here only print, so the list is fixed for the loop's duration.
- `HashMap` hashing, buckets and resizing are not modelled: the cache is a Dafny `map` keyed by string value, which is how `String.equals` and `hashCode` make `HashMap` behave.
- Builder.Drink.ToString has no contract of its own. Its fixed field order is stated by Builder.ToStringDistinguishesFields, and a null field prints as "null".
- Builder.RenderDistinguishesWines: a null name and the name "null" cannot be told apart (Builder.NullNamePrintsAsText), so the conclusion is about the printed names.
- The XML builder's unclosed `<NAME>…<NAME>` and `<YEAR>…<YEAR>` tags, and the protection proxy printing the virtual proxy's message, are modelled as written.
- The `main` demonstrations of Builder and Flyweight are not modelled as a whole. Builder.ChainLastSetWins, Builder.WhiskeyYearDefaultsToZero, Flyweight.LookupTwice and Flyweight.RenderUnshared exercise the same builders and the factory, but Builder's `main` never builds a `Whiskey` and sets each drink field once. Its printing of the director's output after "test = ", "JSON = " and "XML = " is not modelled.
- Lombok annotations are taken as the constructors they generate. `Composite`'s `@Getter` only exposes the list, which the model reads directly.
- `Singleton.java` is not part of this model. It is a single eager `static final` holder whose correctness rests on JVM class initialisation, which is concurrency.
- `AbstractFactory.java`, `FactoryMethod.java`, `Adapter.java` and `Decorator.java` are not part of this model. They only wire objects together and call the wrapped method, so there is no logic to state.

# Documentation model builder, namespace node, date arithmetic and template names

A Dafny model of four pieces of the `code-patterns` repository:

- **The documentation-model builder** (`ModelBuilder`). A type is classified first-match as enumeration, interface, class or (otherwise) struct. Its constructors, fields, properties, methods and enumeration values are then collected, each only for the kinds of type the source gates it on. Members that `object` also has are dropped on request; a member matches when its kind, declaring type and name are the same. An enumeration's backing values are mapped to their names. A namespace is split into its cumulative dotted prefixes. Reflection is data here: a `TypeDescriptor` records the type's flags, its names, and the lists `GetMembers`, `GetFields`, `GetProperties` and `GetMethods` return. What `typeof(object).GetMembers` returns is a parameter.
- **The namespace node** (`NamespaceModels.NamespaceModel`). A class with five lists. `AddNamespace` appends a child. `AddModel` appends a type model to the list that the binder table names for its static model class, and does nothing for a class missing from the table. The getters `Namespaces`, `Interfaces`, `Classes`, `Enums` and `Structs` return the lists, and the methods' contracts are stated through them.
- **Date arithmetic** (`TimeExtensions`). Truncation of a date-time to the second or to the day, and the conversion of a birth date into an age. The current moment is a parameter.
- **Template names** (`TemplateManager`). The name extracted from a requested resource name by the pattern `^(?<name>.+)\.cshtml$`.

Helper modules: `Wrappers` (Option, Result), `Strings` (`Split`/`Join` on one separator, as `String.Split(char)` behaves), `Linq` (`Where`, `Select`, `Any`).

Two error paths of the code are modelled as failures:

- An enumeration with two names on one backing value makes `ToDictionary` throw, so the builder does not accept aliases. The model returns `Failure(DuplicateEnumValue(v))`.
- A type outside every namespace has a null `Namespace`, so `BuildGraduatedNamespaces` throws; the code has no "global" node. The model returns `Failure(NullNamespace)`.

The code has no lookup-or-create namespace tree (see "Left out").

## Model

| member | source | states |
|---|---|---|
| `ModelBuilder.Classify` | tools/Patterns.Tools.DocTemplates/Models/ModelBuilder.cs:45-54 | Enumeration first, then interface, then class; every other type is a struct, and the four cases are exclusive |
| `ModelBuilder.KindGatesCollections` | tools/Patterns.Tools.DocTemplates/Models/ModelBuilder.cs:66-74 | For a type with consistent flags: an enumeration gets only values; an interface gets only properties and methods; a class gets constructors, fields, properties and methods; a struct gets the same, with fields exactly when it is a non-primitive value type |
| `ModelBuilder.IsDefinedByObject` | tools/Patterns.Tools.DocTemplates/Models/ModelBuilder.cs:156-160 | True exactly when some member of `object` has the same member type, declaring type and name |
| `ModelBuilder.FilterObjectMatches` | tools/Patterns.Tools.DocTemplates/Models/ModelBuilder.cs:100-101 | Without filtering every member passes, in order; with filtering a member is kept exactly when `object` has no matching member |
| `ModelBuilder.KeptPreservesOrder` | tools/Patterns.Tools.DocTemplates/Models/ModelBuilder.cs:148-149 | Filtering distributes over concatenation, so reflection order is kept |
| `ModelBuilder.OverrideIsKept` | tools/Patterns.Tools.DocTemplates/Models/ModelBuilder.cs:156-159 | A member declared by a type other than `object`, such as a `ToString` override, is never filtered out |
| `ModelBuilder.OnlyObjectMembers` | tools/Patterns.Tools.DocTemplates/Models/ModelBuilder.cs:131-132 | Members that all match `object`'s are all dropped when filtering and all kept otherwise |
| `ModelBuilder.EnumValueMap` | tools/Patterns.Tools.DocTemplates/Models/ModelBuilder.cs:88 | Succeeds exactly when the backing values are distinct, and then maps every backing value to its enumerant's name with no other keys; on failure the reported value occurs twice |
| `ModelBuilder.EnumValueMapExamples` | tools/Patterns.Tools.DocTemplates/Models/ModelBuilder.cs:88 | Red/Green/Blue at 0/1/2 map to their names; two names on value 0 throw |
| `ModelBuilder.NewTypeBuilderState` | tools/Patterns.Tools.DocTemplates/Models/ModelBuilder.cs:177-182 | The new state holds the type and the filtering switch; its model is of the requested class, carries the type's name, full name and namespace, and has no collection set |
| `ModelBuilder.DefaultEnumValueHandler` | tools/Patterns.Tools.DocTemplates/Models/ModelBuilder.cs:82-86 | Stores the value map exactly when the model's class implements `IHaveEnumValues`; nothing else in the model changes |
| `ModelBuilder.DefaultMethodHandler` | tools/Patterns.Tools.DocTemplates/Models/ModelBuilder.cs:94-98 | Stores the method models exactly when the model's class implements `IHaveMethods`; nothing else in the model changes |
| `ModelBuilder.DefaultConstructorHandler` | tools/Patterns.Tools.DocTemplates/Models/ModelBuilder.cs:111-115 | Stores the constructor models exactly when the model's class implements `IHaveConstructors`; nothing else in the model changes |
| `ModelBuilder.DefaultFieldHandler` | tools/Patterns.Tools.DocTemplates/Models/ModelBuilder.cs:125-129 | Stores the field models exactly when the model's class implements `IHaveFields`; nothing else in the model changes |
| `ModelBuilder.DefaultPropertyHandler` | tools/Patterns.Tools.DocTemplates/Models/ModelBuilder.cs:142-146 | Stores the property models exactly when the model's class implements `IHaveProperties`; nothing else in the model changes |
| `ModelBuilder.BuildEnumValues` | tools/Patterns.Tools.DocTemplates/Models/ModelBuilder.cs:79-89 | Throws exactly when a backing value repeats, reporting the repeated value. Otherwise a caller's handler gets the model and the value map; the default stores the map only when the class implements `IHaveEnumValues` and changes nothing else. The model keeps its class |
| `ModelBuilder.BuildMethods` | tools/Patterns.Tools.DocTemplates/Models/ModelBuilder.cs:91-106 | A caller's handler gets the model and the kept method models; the default stores them only when the class implements `IHaveMethods` and changes nothing else. The model keeps its class |
| `ModelBuilder.BuildConstructors` | tools/Patterns.Tools.DocTemplates/Models/ModelBuilder.cs:108-120 | A caller's handler gets the model and the kept constructor models; the default stores them only when the class implements `IHaveConstructors` and changes nothing else. The model keeps its class |
| `ModelBuilder.BuildFields` | tools/Patterns.Tools.DocTemplates/Models/ModelBuilder.cs:122-137 | A caller's handler gets the model and the kept field models; the default stores them only when the class implements `IHaveFields` and changes nothing else. The model keeps its class |
| `ModelBuilder.BuildProperties` | tools/Patterns.Tools.DocTemplates/Models/ModelBuilder.cs:139-154 | A caller's handler gets the model and the kept property models; the default stores them only when the class implements `IHaveProperties` and changes nothing else. The model keeps its class |
| `ModelBuilder.BuildTypeModelAs` | tools/Patterns.Tools.DocTemplates/Models/ModelBuilder.cs:56-77 | For handlers that return normally, a build throws exactly for an enumeration with a repeated backing value, and the model keeps the class `TModel` |
| `ModelBuilder.BuildTypeModel` | tools/Patterns.Tools.DocTemplates/Models/ModelBuilder.cs:45-54 | The non-generic overload throws exactly for an enumeration with a repeated backing value, and otherwise yields the default model of the classified class (see `ModelBuilder.DefaultBuildIsDefaultModel`) |
| `ModelBuilder.DefaultBuildIsDefaultModel` | tools/Patterns.Tools.DocTemplates/Models/ModelBuilder.cs:64-76 | With the default handlers, the step-by-step build equals the model described all at once, with each collection present exactly when its gate and the model's `IHave...` interface allow it |
| `ModelBuilder.DefaultBuildIdentity` | tools/Patterns.Tools.DocTemplates/Models/ModelBuilder.cs:177-182 | With the default handlers the model keeps the type's name, full name and namespace |
| `ModelBuilder.BuildTypeModelIdentity` | tools/Patterns.Tools.DocTemplates/Models/ModelBuilder.cs:45-54 | The non-generic overload builds the classified model class, carrying the type's name, full name and namespace |
| `ModelBuilder.DefaultBuildConstructors` | tools/Patterns.Tools.DocTemplates/Models/ModelBuilder.cs:108-120 | Constructors are stored exactly for non-enumeration, non-interface types whose model implements `IHaveConstructors`, one model per kept constructor |
| `ModelBuilder.DefaultBuildFields` | tools/Patterns.Tools.DocTemplates/Models/ModelBuilder.cs:122-137 | Fields are stored exactly when the field gate holds and the model implements `IHaveFields`, naming the kept fields in order |
| `ModelBuilder.DefaultBuildProperties` | tools/Patterns.Tools.DocTemplates/Models/ModelBuilder.cs:139-154 | Properties are stored exactly for non-enumerations whose model implements `IHaveProperties`, naming the kept properties in order |
| `ModelBuilder.DefaultBuildMethods` | tools/Patterns.Tools.DocTemplates/Models/ModelBuilder.cs:91-106 | Methods are stored exactly for non-enumerations whose model implements `IHaveMethods`, naming the kept methods in order |
| `ModelBuilder.DefaultBuildEnumValues` | tools/Patterns.Tools.DocTemplates/Models/ModelBuilder.cs:79-89 | The value map is stored exactly for enumerations whose model implements `IHaveEnumValues`, and sends each backing value to its name |
| `ModelBuilder.UnusedHandlersIgnored` | tools/Patterns.Tools.DocTemplates/Models/ModelBuilder.cs:66-74 | Handlers for collections whose gate is closed are never run: handler sets that agree on the open gates build the same model |
| `ModelBuilder.CustomMethodHandlerReplacesDefault` | tools/Patterns.Tools.DocTemplates/Models/ModelBuilder.cs:91-100 | A caller-supplied method handler replaces the default: for a non-enumeration, the build succeeds with a handler that keeps its model, and the built model is what the caller's handler makes of that model and the kept method models, in the same class |
| `ModelBuilder.CustomEnumValueHandlerReplacesDefault` | tools/Patterns.Tools.DocTemplates/Models/ModelBuilder.cs:79-88 | A caller-supplied value handler replaces the default: for an enumeration without repeated values, the build succeeds with a handler that keeps its model, and the built model is what the caller's handler makes of that model and the value map, in the same class |
| `Strings.Split` | tools/Patterns.Tools.DocTemplates/Models/ModelBuilder.cs:166 | One more part than there are dots, no part contains a dot, and joining the parts with dots gives the input back |
| `ModelBuilder.AccumulatedIsJoin` | tools/Patterns.Tools.DocTemplates/Models/ModelBuilder.cs:166-171 | Unless the first segment is empty, the string builder holds the segments so far joined by dots |
| `ModelBuilder.BuildGraduatedNamespaces` | tools/Patterns.Tools.DocTemplates/Models/ModelBuilder.cs:162-173 | Throws exactly for a null namespace. Otherwise: one entry per segment, each entry a prefix of the next. Without a leading dot, entry k is segments 0..k joined by dots and the last entry is the namespace |
| `NamespaceModels.ModelBinder` | tools/Patterns.Tools.DocTemplates/Models/NamespaceModel.cs:33-40 | The table has an entry for each of the four model classes and none for any other class |
| `NamespaceModels.NamespaceModel.constructor` | tools/Patterns.Tools.DocTemplates/Models/NamespaceModel.cs:48-55 | All five lists start empty and the name is unset |
| `NamespaceModels.NamespaceModel.Namespaces` | tools/Patterns.Tools.DocTemplates/Models/NamespaceModel.cs:59-62 | Returns the child namespaces, the list `AddNamespace` appends to |
| `NamespaceModels.NamespaceModel.Interfaces` | tools/Patterns.Tools.DocTemplates/Models/NamespaceModel.cs:64-67 | Returns the interface list the binder table fills; in a valid node every entry is an interface model |
| `NamespaceModels.NamespaceModel.Classes` | tools/Patterns.Tools.DocTemplates/Models/NamespaceModel.cs:69-72 | Returns the class list the binder table fills; in a valid node every entry is a class model |
| `NamespaceModels.NamespaceModel.Enums` | tools/Patterns.Tools.DocTemplates/Models/NamespaceModel.cs:74-77 | Returns the enumeration list the binder table fills; in a valid node every entry is an enumeration model |
| `NamespaceModels.NamespaceModel.Structs` | tools/Patterns.Tools.DocTemplates/Models/NamespaceModel.cs:79-82 | Returns the struct list the binder table fills; in a valid node every entry is a struct model |
| `NamespaceModels.NamespaceModel.AddNamespace` | tools/Patterns.Tools.DocTemplates/Models/NamespaceModel.cs:89-92 | Appends the child at the end of the namespaces; the four type lists are unchanged |
| `NamespaceModels.NamespaceModel.AddModel` | tools/Patterns.Tools.DocTemplates/Models/NamespaceModel.cs:94-99 | Appends the model to exactly the list the table names for its static class; every other list is unchanged; an unregistered class changes nothing; each list holds only its own class |
| `NamespaceModels.AddTwiceThenUnregistered` | tools/Patterns.Tools.DocTemplates/Models/NamespaceModel.cs:36-39 | Adding one class model twice lists it twice (no deduplication); adding it through an unregistered class changes nothing |
| `TimeExtensions.AccurateToOneSecond` | src/Patterns/Runtime/TimeExtensions.cs:50-53 | Keeps year, month, day, hour, minute and second, and drops the sub-second part |
| `TimeExtensions.AccurateToOneDay` | src/Patterns/Runtime/TimeExtensions.cs:63-66 | Keeps year, month and day, and zeroes the time of day |
| `TimeExtensions.TruncationIsIdempotent` | src/Patterns/Runtime/TimeExtensions.cs:50-66 | Truncating a second time, to the second or to the day, changes nothing |
| `TimeExtensions.DayAbsorbsSecond` | src/Patterns/Runtime/TimeExtensions.cs:50-66 | Truncating to the day after or before truncating to the second is truncating to the day |
| `TimeExtensions.ToAge` | src/Patterns/Runtime/TimeExtensions.cs:73-90 | Months are in 0..11. Twelve times the years plus the months is the whole months elapsed by the components. Days are the plain day difference and may be negative. With no borrow, the age is the three component differences |
| `TimeExtensions.AgeFeatureRows` | src/_specs/Features/Values/Age.feature.cs:71-73 | The feature's first three conversions give 40/0/0, 10/0/13 and 0/1/0 |
| `TimeExtensions.AgeFeatureRowFourAsWritten` | src/_specs/Features/Values/Age.feature.cs:74 | As written, 7/31/2013 seen on 8/9/2013 gives -22 days, not the 9 the feature expects |
| `TimeExtensions.ToAgeBorrowingDays` | src/Patterns/Runtime/TimeExtensions.cs:77-89 | Corrected borrow. Years and months are as in `ToAge`. A borrowed month adds the day count of the month before now. Days are at most 30, and never negative when the birth day exists in that month |
| `TimeExtensions.AgeFeatureRowsFourAndFive` | src/_specs/Features/Values/Age.feature.cs:74-75 | With the corrected borrow, the feature's last two conversions give 0/0/9 and 0/1/20 |
| `TemplateManager.TemplateName` | tools/Patterns.Tools.DocTemplates/TemplateManager.cs:60-63 | A non-empty name followed by `.cshtml` yields that name. Anything else is returned unchanged. The result is always a prefix of the input |
| `TemplateManager.BareSuffixUnchanged` | tools/Patterns.Tools.DocTemplates/TemplateManager.cs:42-43 | `.cshtml` alone is unchanged, since `.+` needs a character |
| `TemplateManager.StripsOneSuffix` | tools/Patterns.Tools.DocTemplates/TemplateManager.cs:42-43 | Only one trailing `.cshtml` is stripped |
| `TemplateManager.UpperCaseSuffixUnchanged` | tools/Patterns.Tools.DocTemplates/TemplateManager.cs:42-43 | Matching is case-sensitive: `A.CSHTML` is unchanged |

## Findings

| source | as written | input that shows it | evidently intended | confidence | as-written member | corrected member |
|---|---|---|---|---|---|---|
| src/Patterns/Runtime/TimeExtensions.cs:78-81 | When the day of the month has not been reached, a month is given up but days stay `now.Day - value.Day`, which is negative | Birth 7/31/2013 seen on 8/9/2013 gives 0 years, 0 months, -22 days (and 6/20/2013 gives 0/1/-11) | 9 days and 0/1/20, as Age.feature.cs:74-75 expect: the month given up is counted as the days of the month before now | medium (not executed) | `TimeExtensions.AgeFeatureRowFourAsWritten` | `TimeExtensions.ToAgeBorrowingDays` |

## Left out

- `ModelBuilder.AddAssemblyType` and `NamespaceModel.Match` are unfinished in the source: `Match` has an empty body and `AddAssemblyType` stops at a TODO. `AssemblyModel` is not part of this model. So there is no namespace lookup-or-create, no node identity and no global node to model; the model covers only the prefix splitter and the node's `Add` operations.
- The .NET reflection calls (`GetMembers`, `GetFields`, `GetProperties`, `GetMethods`, `Enum.GetValues`, `Enum.GetName`) are foreign. Their results are inputs, in whatever order they come.
- Which `IHave...` interfaces each model class implements is declared with the model classes, which this model does not cover. It is the parameter `implements`.
- `ModelBuilder.BuildTypeModel` and `ModelBuilder.BuildTypeModelAs`: C# optional parameters are not modelled. Both overloads declare `filterObjectMatches = true` and every handler `= null`, and `AddAssemblyType` relies on the switch's default. Here the switch is a required argument, and omitting it corresponds to passing `ModelBuilder.DefaultFilterObjectMatches` (true). Omitting a handler corresponds to passing `None`.
- `ModelBuilder.Apply`: the model object that handlers mutate is a value passed through each handler and returned. A handler that keeps a reference to the model and changes it later is not captured. A handler cannot change the object's class, so the builder restores it after each handler.
- LINQ's deferred evaluation is not modelled: each member collection is built eagerly, as a list of values. Enumerating the stored C# collection again yields the same names in the same order, because reflection answers the same each time. But each enumeration re-runs the query, including `typeof(object).GetMembers`, and creates new member-model objects, so object identity and changes made to a member model do not persist in C#. The model does not capture that.
- `ModelBuilder.BuildTypeModelAs`: handlers are assumed to return normally. A C# `Action` may throw, which ends the build; a `Handler` here is a total function.
- `ModelBuilder.CustomMethodHandlerReplacesDefault` and `ModelBuilder.CustomEnumValueHandlerReplacesDefault` pin a custom handler's effect only for the step that runs last. For the constructor, field and property handlers (ModelBuilder.cs:111-117, 125-131, 142-148) the replacement is stated per step by `ModelBuilder.BuildConstructors`, `ModelBuilder.BuildFields` and `ModelBuilder.BuildProperties`. No lemma states the whole build's result for them, because the later steps run on their output.
- `ModelBuilder.EnumValueMap`: `Cast<int>()` throws for an enumeration whose underlying type is not `int`. Backing values are unbounded integers here.
- `ModelBuilder.BuildTypeModelAs`: the generic argument `TModel` ranges over the four model classes only.
- `NamespaceModels.NamespaceModel.AddModel`: requires the model to be of the class the binder table names for its static class. C# guarantees only that the model is a `TModel` or a subclass of it. The requirement also takes none of the four model classes to derive from another.
- `NamespaceModels.NamespaceModel.AddModel` and `NamespaceModels.NamespaceModel.AddNamespace`: C# `Add(null)` and `Add<ClassModel>(null)` append a null entry. Models and child nodes here are never null, so that case is not expressible.
- The getters return the live list in C#, so later additions show through an enumerable obtained earlier. Here they return the list's current value.
- The `NamespaceName` property is a plain field with no further behaviour.
- `TemplateManager.TemplateName`: names are assumed to contain no newline. In .NET, `.` does not match `\n`, and `$` also matches before a final `\n`.
- The Razor engine setup, template rendering and the `ResourceManager.GetString` lookup in `TemplateManager` are foreign libraries.
- `DateTimeInfo.Current.GetNow()` (a wall-clock read behind a global selector) and its test stub are replaced by the parameter `now`.
- `DateTime.Kind`, tick-level arithmetic and calendar validity of a day within its month are not modelled. Components are bounded to their ranges, and the day to 1..31.
- The `Age` constructor is not part of this model; an age is its three integers.
- `ObservableInterceptor` (proxy interception publishing to Rx subjects), `LoggingModule` (dependency-injection wiring) and the feature and step scaffolding are outside the modelled core. Only the age feature's expected values are used, as evidence.

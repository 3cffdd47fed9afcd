# Autocomplete extension for a text field — Dafny model

The server side of a Vaadin add-on that gives a `TextField` type-ahead
suggestions. As the user types, the browser calls the server's `query`
handler. The server asks a pluggable *generator* for suggestion items, given
the query and the configured list size. A *value converter* and a *caption
converter* turn each item into a `SuggestionData(value, caption)` pair, and
the list goes back to the browser in one `showSuggestions(entries, query)`
message. Two integers live in the state shared with the client: the
suggestion delay and the suggestion list size. Their setters refuse negative
values and mark the state for sending only when the value actually changes.

Files:

- `optional.dfy` — module `Optional`: `Option`, the model of a nullable reference, and `OrElse` (`Optional.orElse`).
- `suggestions.dfy` — module `Suggestions`: the pure pipeline. It holds `SuggestionData`, the outbound `Message`, the default caption converter and the in-order mapping of items to entries.
- `autocomplete_extension.dfy` — module `Autocomplete`: the class `AutocompleteExtension<T>` with its strategy slots, shared state, setters, getters and query handler. Module `AutocompleteClient` holds client methods that derive the documented behaviours from the contracts alone.

Modelling decisions:

- Java `int` becomes the newtype `int32`. The code does no arithmetic on these values, so wrap-around never arises.
- `T.toString()` is the constant `toString: T -> string`, fixed when the extension is constructed and otherwise left uninterpreted.
- A `null` strategy is `None`. The one-argument `setSuggestionGenerator` is `SetSuggestionGenerator`. The three-argument overload is `SetSuggestionGeneratorWithConverters`.
- `getState()` marks the shared state dirty and `getState(false)` does not. The model has a `dirty` field for this. Ghost fields record the configuration the client last received. `Valid()` says that a state not marked dirty equals that configuration, so change detection never loses a change.
- `IllegalArgumentException` is the `Outcome` value `IllegalArgument(message)`, with the source's two messages.
- Sending the message is the handler's return value: `None` when nothing is sent. The handler reads the state only through `getState(false)`, so it is a function that reads the object and can change nothing.

Two points where the behaviour is easy to misread:

- The list size is passed to the generator but is not enforced: the handler forwards every item the generator returns. `HandleQuery` states that the entry count equals the generator's output length, and `NoTruncationWalkthrough` shows a two-entry answer at list size 1.
- The exception messages say "must be positive", but zero is accepted. The Javadoc says "must not be negative", and the model follows the code.

## Model

| member | source | states |
|---|---|---|
| `Suggestions.ToSuggestionData` | src/main/java/org/vaadin/addons/AutocompleteExtension.java:59-64 | the list has one entry per generated item, in the same order; entry i has value `vConv(item i)` and caption `cConv(item i, query)` |
| `Suggestions.ToSuggestionDataAppend` | src/main/java/org/vaadin/addons/AutocompleteExtension.java:61-64 | mapping a concatenation gives the concatenation of the mapped parts, so no entry is dropped, duplicated or reordered |
| `Suggestions.DefaultCaptionIgnoresQuery` | src/main/java/org/vaadin/addons/AutocompleteExtension.java:40-41 | with the default caption converter, the suggestion list for given items is the same whatever the query |
| `Autocomplete.AutocompleteExtension.HandleQuery` | src/main/java/org/vaadin/addons/AutocompleteExtension.java:44-66 | no message exactly when no generator is set; otherwise one message carrying the originating query, with as many entries as the generator returned for (query, list size), no truncation; entry i holds the user's converters' results for item i, or `toString(item i)` for a missing converter, with the default caption independent of the query; reads the state only |
| `Suggestions.DefaultConvertersGiveDefaultEntries` | src/main/java/org/vaadin/addons/AutocompleteExtension.java:40-42 | with both default converters resolved, the list equals `DefaultEntries`, a separate definition that pairs each item's string form with itself |
| `Suggestions.ValuesIgnoreCaptions` | src/main/java/org/vaadin/addons/AutocompleteExtension.java:56-63 | the values of the list, in order, are fixed by the value converter alone; the caption converter and the query do not affect them |
| `Suggestions.CaptionsIgnoreValues` | src/main/java/org/vaadin/addons/AutocompleteExtension.java:53-63 | the captions of the list, in order, are fixed by the caption converter and the query alone; the value converter does not affect them |
| `Autocomplete.AutocompleteExtension.HandleQueryWithDefaults` | src/main/java/org/vaadin/addons/AutocompleteExtension.java:47-64 | with a generator and no converters set, the answer is `DefaultEntries` of the generated items together with the query |
| `Autocomplete.AutocompleteExtension.SameConfigurationSameAnswer` | src/main/java/org/vaadin/addons/AutocompleteExtension.java:44-66 | two extensions with the same strategies, `toString` and list size give identical answers to identical queries, whatever their delay or dirty flag; setting the same strategies again therefore changes no answer |
| `Autocomplete.AutocompleteExtension.constructor` | src/main/java/org/vaadin/addons/AutocompleteExtension.java:36-42 | no strategy set, the shared state at the given initial values, nothing pending, and `Valid()` holds |
| `Autocomplete.AutocompleteExtension.SetSuggestionGenerator` | src/main/java/org/vaadin/addons/AutocompleteExtension.java:87-90 | sets the generator and resets both converters to the defaults, the same as the three-argument form with two nulls; the frame leaves delay, list size and the dirty flag alone |
| `Autocomplete.AutocompleteExtension.SetSuggestionGeneratorWithConverters` | src/main/java/org/vaadin/addons/AutocompleteExtension.java:104-111 | overwrites all three strategy slots with the arguments and touches no configuration |
| `Autocomplete.AutocompleteExtension.SetSuggestionDelay` | src/main/java/org/vaadin/addons/AutocompleteExtension.java:119-136 | a negative delay is refused with "Delay must be positive." and changes nothing; zero or more is accepted and `GetSuggestionDelay()` then returns it; the state becomes dirty only if the value changed; list size and strategies are untouched; `Valid()` is preserved |
| `Autocomplete.AutocompleteExtension.SetSuggestionListSize` | src/main/java/org/vaadin/addons/AutocompleteExtension.java:145-163 | a negative size is refused with "Size must be positive" and changes nothing; zero or more is accepted and `GetSuggestionListSize()` then returns it; dirty only on a real change; delay and strategies untouched; `Valid()` is preserved |

## Left out

- Attaching to the field (`registerRpc`, `extend`, lines 74-78) and the RPC transport (`getRpcProxy`): these are framework calls. The handler's return value stands for the sent message.
- The framework's side of the dirty flag: marking a connector dirty on attach and clearing the flag after sending state are not modelled. The flag starts false and only the setters raise it.
- The `getState` overrides (lines 165-173) are casts. They are modelled by the fields and the `dirty` flag.
- Exceptions thrown by user generators or converters: these are taken as total functions.
- Null results and null items: `T` has no null value and a generator always yields a sequence. A generator that returns `null` (the stream at line 61 throws), or a list with a `null` item under a default converter (`s.toString()` at lines 41-42 throws a `NullPointerException`, so no message is sent), is not represented; `HandleQuery` answers with a message in those cases.
- The client side (debounce, rendering, selection) and the HTML safety of captions, which the code does not check.
- Concurrency and session threading: each call runs to completion and alone.

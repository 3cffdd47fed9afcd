/** The server side of the autocomplete extension of a text field: two pieces
    of configuration shared with the client, three replaceable strategies, and
    the handler of the client's query call. */
module Autocomplete {
  import opened Optional
  import opened Suggestions

  /** A Java `int`. */
  newtype int32 = x: int | -0x8000_0000 <= x < 0x8000_0000

  /** `SuggestionGenerator<T>`: the items to suggest for a query, given the
      configured list size. */
  type Generator<T> = (string, int32) -> seq<T>

  /** `SuggestionValueConverter<T>`: the text put into the field on selection. */
  type ValueConverter<-T> = T -> string

  /** `SuggestionCaptionConverter<T>`: the label shown, given the query. */
  type CaptionConverter<-T> = (T, string) -> string

  /** How a setter ends: normally, or with an `IllegalArgumentException`. */
  datatype Outcome = Ok | IllegalArgument(message: string)

  const DelayMessage: string := "Delay must be positive."
  const SizeMessage: string := "Size must be positive"

  class AutocompleteExtension<T> {
    /** `Object.toString` of the suggestion type, left uninterpreted. */
    const toString: T -> string

    // The three strategy slots; `None` stands for `null`.
    var suggestionGenerator: Option<Generator<T>>
    var valueConverter: Option<ValueConverter<T>>
    var captionConverter: Option<CaptionConverter<T>>

    // The shared state (`AutocompleteExtensionState`) and whether it has been
    // marked for sending to the client: `getState()` sets `dirty`,
    // `getState(false)` leaves it alone.
    var suggestionDelay: int32
    var suggestionListSize: int32
    var dirty: bool

    // The configuration as the client last received it.
    ghost var syncedDelay: int32
    ghost var syncedListSize: int32

    /** Change detection never loses a change: a state that is not marked
        dirty is the one the client already has. */
    ghost predicate Valid()
      reads this
    {
      !dirty ==> suggestionDelay == syncedDelay && suggestionListSize == syncedListSize
    }

    /** Attaches a new extension; the shared state starts with the given
        values, no strategy is set and nothing is pending for the client. */
    constructor (toString: T -> string, initialDelay: int32, initialListSize: int32)
      ensures Valid()
      ensures this.toString == toString
      ensures suggestionGenerator == None && valueConverter == None && captionConverter == None
      ensures suggestionDelay == initialDelay && suggestionListSize == initialListSize
      ensures !dirty
    {
      this.toString := toString;
      suggestionGenerator, valueConverter, captionConverter := None, None, None;
      suggestionDelay, suggestionListSize := initialDelay, initialListSize;
      dirty := false;
      syncedDelay, syncedListSize := initialDelay, initialListSize;
    }

    /** Sets the generator and clears both converters, so the defaults apply. */
    method SetSuggestionGenerator(generator: Option<Generator<T>>)
      requires Valid()
      modifies this`suggestionGenerator, this`valueConverter, this`captionConverter
      ensures Valid()
      ensures suggestionGenerator == generator
      ensures valueConverter == None && captionConverter == None
    {
      SetSuggestionGeneratorWithConverters(generator, None, None);
    }

    /** Replaces all three strategies at once. */
    method SetSuggestionGeneratorWithConverters(generator: Option<Generator<T>>,
                                                valueConverter: Option<ValueConverter<T>>,
                                                captionConverter: Option<CaptionConverter<T>>)
      requires Valid()
      modifies this`suggestionGenerator, this`valueConverter, this`captionConverter
      ensures Valid()
      ensures suggestionGenerator == generator
      ensures this.valueConverter == valueConverter && this.captionConverter == captionConverter
    {
      this.suggestionGenerator := generator;
      this.valueConverter := valueConverter;
      this.captionConverter := captionConverter;
    }

    /** The delay the client waits before calling the server. */
    function GetSuggestionDelay(): int32
      reads this
    {
      suggestionDelay
    }

    /** Sets the delay; a negative one is refused and changes nothing, zero is
        accepted. The state is marked dirty only when the value changes. */
    method SetSuggestionDelay(delayMillis: int32) returns (outcome: Outcome)
      requires Valid()
      modifies this`suggestionDelay, this`dirty
      ensures Valid()
      ensures outcome == (if delayMillis < 0 then IllegalArgument(DelayMessage) else Ok)
      ensures delayMillis < 0 ==> suggestionDelay == old(suggestionDelay) && dirty == old(dirty)
      ensures delayMillis >= 0 ==> GetSuggestionDelay() == delayMillis
      ensures delayMillis >= 0 ==> dirty == (old(dirty) || old(suggestionDelay) != delayMillis)
    {
      if delayMillis < 0 {
        return IllegalArgument(DelayMessage);
      }
      if suggestionDelay != delayMillis {
        dirty := true;
        suggestionDelay := delayMillis;
      }
      return Ok;
    }

    /** The largest number of suggestions the generator is asked for. */
    function GetSuggestionListSize(): int32
      reads this
    {
      suggestionListSize
    }

    /** Sets the list size, with the same validation and change detection as
        the delay. */
    method SetSuggestionListSize(size: int32) returns (outcome: Outcome)
      requires Valid()
      modifies this`suggestionListSize, this`dirty
      ensures Valid()
      ensures outcome == (if size < 0 then IllegalArgument(SizeMessage) else Ok)
      ensures size < 0 ==> suggestionListSize == old(suggestionListSize) && dirty == old(dirty)
      ensures size >= 0 ==> GetSuggestionListSize() == size
      ensures size >= 0 ==> dirty == (old(dirty) || old(suggestionListSize) != size)
    {
      if size < 0 {
        return IllegalArgument(SizeMessage);
      }
      if suggestionListSize != size {
        dirty := true;
        suggestionListSize := size;
      }
      return Ok;
    }

    /** The items the generator yields for `query` at the current list size. */
    function Generated(query: string): seq<T>
      reads this
      requires suggestionGenerator.Some?
    {
      suggestionGenerator.value(query, suggestionListSize)
    }

    /** The handler of the client's `query` call: no message without a
        generator; otherwise one message with every generated item, in order,
        converted by the set converters or the `toString` defaults, and the
        originating query. It only reads the state. */
    function HandleQuery(query: string): (msg: Option<Message>)
      reads this
      ensures msg.None? <==> suggestionGenerator.None?
      ensures msg.Some? ==> msg.value.query == query
      ensures msg.Some? ==> |msg.value.entries| == |Generated(query)|
      ensures msg.Some? ==> forall i :: 0 <= i < |Generated(query)| ==>
        msg.value.entries[i].value
          == (match valueConverter
              case Some(v) => v(Generated(query)[i])
              case None => toString(Generated(query)[i]))
      ensures msg.Some? ==> forall i :: 0 <= i < |Generated(query)| ==>
        msg.value.entries[i].caption
          == (match captionConverter
              case Some(c) => c(Generated(query)[i], query)
              case None => toString(Generated(query)[i]))
    {
      match suggestionGenerator
      case None => None
      case Some(generator) =>
        var suggestions := generator(query, suggestionListSize);
        var cConverter := captionConverter.OrElse(DefaultCaption(toString));
        var vConverter := valueConverter.OrElse(toString);
        Some(ShowSuggestions(ToSuggestionData(suggestions, vConverter, cConverter, query), query))
    }

    /** With a generator and no converters set, the handler answers with
        `DefaultEntries` of the generated items: each item's string form as
        both value and caption. */
    lemma HandleQueryWithDefaults(query: string)
      requires suggestionGenerator.Some? && valueConverter.None? && captionConverter.None?
      ensures HandleQuery(query) == Some(ShowSuggestions(DefaultEntries(Generated(query), toString), query))
    {
      DefaultConvertersGiveDefaultEntries(Generated(query), toString, query);
    }

    /** The answer depends only on the strategies, `toString` and the list
        size: another extension configured the same way, whatever its delay or
        dirty flag, answers every query identically. */
    lemma SameConfigurationSameAnswer(other: AutocompleteExtension<T>, query: string)
      requires other.toString == toString && other.suggestionListSize == suggestionListSize
      requires other.suggestionGenerator == suggestionGenerator
      requires other.valueConverter == valueConverter && other.captionConverter == captionConverter
      ensures other.HandleQuery(query) == HandleQuery(query)
    {
    }
  }
}

/** What a caller of the extension can conclude from the contracts alone,
    for the documented behaviours: default and custom converters, the
    missing generator, argument validation, change detection and the absence
    of any truncation to the list size. */
module AutocompleteClient {
  import opened Optional
  import opened Suggestions
  import opened Autocomplete

  /** Both default converters answer with each item's string form twice;
      with no generator there is no message. */
  method DefaultConvertersWalkthrough() {
    var e := new AutocompleteExtension<string>((s: string) => s, 300, 10);
    assert e.HandleQuery("x") == None;

    var fruit := (q: string, n: int32) => if q == "ap" then ["apple", "apricot"] else [];
    e.SetSuggestionGenerator(Some(fruit));
    var m := e.HandleQuery("ap");
    assert m.Some? && m.value.query == "ap";
    assert m.value.entries[0] == SuggestionData("apple", "apple");
    assert m.value.entries[1] == SuggestionData("apricot", "apricot");
    assert m.value.entries == [SuggestionData("apple", "apple"), SuggestionData("apricot", "apricot")];
  }

  /** A custom value converter changes the values and leaves the captions;
      the one-argument setter clears it again, and setting the same generator
      once more changes no answer. */
  method ConvertersWalkthrough() {
    var e := new AutocompleteExtension<string>((s: string) => s, 300, 10);
    var fruit := (q: string, n: int32) => if q == "ap" then ["apple", "apricot"] else [];
    var bracket := (s: string) => "<" + s + ">";
    e.SetSuggestionGeneratorWithConverters(Some(fruit), Some(bracket), None);
    assert e.HandleQuery("ap").value.entries[0] == SuggestionData("<apple>", "apple");

    e.SetSuggestionGenerator(Some(fruit));
    var before := e.HandleQuery("ap");
    assert before.value.entries[0] == SuggestionData("apple", "apple");

    e.SetSuggestionGenerator(Some(fruit));
    assert e.HandleQuery("ap") == before;
  }

  /** Negative values are refused with nothing changed, an unchanged value
      marks nothing dirty, and zero is accepted. */
  method SettersWalkthrough() {
    var e := new AutocompleteExtension<string>((s: string) => s, 300, 10);
    var outcome := e.SetSuggestionDelay(-1);
    assert outcome == IllegalArgument(DelayMessage) && e.GetSuggestionDelay() == 300 && !e.dirty;
    outcome := e.SetSuggestionDelay(300);
    assert outcome == Ok && !e.dirty;
    outcome := e.SetSuggestionDelay(0);
    assert outcome == Ok && e.GetSuggestionDelay() == 0 && e.dirty;
    outcome := e.SetSuggestionListSize(-5);
    assert outcome == IllegalArgument(SizeMessage) && e.GetSuggestionListSize() == 10;
  }

  /** The list size is handed to the generator but not enforced. */
  method NoTruncationWalkthrough() {
    var e := new AutocompleteExtension<string>((s: string) => s, 300, 10);
    var fruit := (q: string, n: int32) => if q == "ap" then ["apple", "apricot"] else [];
    e.SetSuggestionGenerator(Some(fruit));
    var outcome := e.SetSuggestionListSize(1);
    assert e.GetSuggestionListSize() == 1;
    var m := e.HandleQuery("ap");
    assert |m.value.entries| == 2;
  }
}

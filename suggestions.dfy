/** The suggestion pipeline: turning the items a generator produced into the
    caption/value pairs that are sent to the browser. Everything here is pure. */
module Suggestions {

  /** One entry of the suggestion list as it travels to the client:
      `value` is written into the text field when the entry is chosen,
      `caption` is the label shown in the drop-down. */
  datatype SuggestionData = SuggestionData(value: string, caption: string)

  /** The one message the server sends back for a query:
      `showSuggestions(entries, query)`. */
  datatype Message = ShowSuggestions(entries: seq<SuggestionData>, query: string)

  /** The caption converter used when none is set: the item's string form,
      whatever the query. */
  function DefaultCaption<T>(toString: T -> string): (T, string) -> string
  {
    (s: T, q: string) => toString(s)
  }

  /** Maps every generated item, in order, to its entry: the value converter
      gives the entry's value and the caption converter, given the item and
      the query, gives its caption. */
  function ToSuggestionData<T>(items: seq<T>, vConv: T -> string,
                               cConv: (T, string) -> string, query: string)
    : (r: seq<SuggestionData>)
    ensures |r| == |items|
    ensures forall i :: 0 <= i < |items| ==>
      r[i].value == vConv(items[i]) && r[i].caption == cConv(items[i], query)
  {
    if items == [] then []
    else [SuggestionData(vConv(items[0]), cConv(items[0], query))]
         + ToSuggestionData(items[1..], vConv, cConv, query)
  }

  /** The mapping is homomorphic: concatenated inputs give concatenated
      outputs, so no entry is dropped, duplicated or reordered. */
  lemma ToSuggestionDataAppend<T>(a: seq<T>, b: seq<T>, vConv: T -> string,
                                  cConv: (T, string) -> string, query: string)
    ensures ToSuggestionData(a + b, vConv, cConv, query)
         == ToSuggestionData(a, vConv, cConv, query) + ToSuggestionData(b, vConv, cConv, query)
  {
  }

  /** With the default caption converter the whole list is independent of the
      query that produced the items. */
  lemma DefaultCaptionIgnoresQuery<T>(items: seq<T>, toString: T -> string,
                                      vConv: T -> string, q1: string, q2: string)
    ensures ToSuggestionData(items, vConv, DefaultCaption(toString), q1)
         == ToSuggestionData(items, vConv, DefaultCaption(toString), q2)
  {
  }

  /** The answer when neither converter is set, defined on its own: every
      item becomes the pair (its string form, its string form). */
  function DefaultEntries<T>(items: seq<T>, toString: T -> string): seq<SuggestionData> {
    if items == [] then []
    else [SuggestionData(toString(items[0]), toString(items[0]))] + DefaultEntries(items[1..], toString)
  }

  /** The pipeline with both defaults resolved agrees with `DefaultEntries`. */
  lemma {:induction false} DefaultConvertersGiveDefaultEntries<T>(items: seq<T>, toString: T -> string,
                                                                 query: string)
    ensures ToSuggestionData(items, toString, DefaultCaption(toString), query)
         == DefaultEntries(items, toString)
  {
    if items != [] {
      DefaultConvertersGiveDefaultEntries(items[1..], toString, query);
    }
  }

  /** The values of a suggestion list, in order: what selecting each entry
      would write into the text field. */
  function Values(entries: seq<SuggestionData>): seq<string> {
    if entries == [] then [] else [entries[0].value] + Values(entries[1..])
  }

  /** The captions of a suggestion list, in order: what the drop-down shows. */
  function Captions(entries: seq<SuggestionData>): seq<string> {
    if entries == [] then [] else [entries[0].caption] + Captions(entries[1..])
  }

  /** The values depend on the value converter alone: another caption
      converter or another query leaves them as they were. */
  lemma {:induction false} ValuesIgnoreCaptions<T>(items: seq<T>, vConv: T -> string,
                                                  c1: (T, string) -> string, c2: (T, string) -> string,
                                                  q1: string, q2: string)
    ensures Values(ToSuggestionData(items, vConv, c1, q1)) == Values(ToSuggestionData(items, vConv, c2, q2))
  {
    if items != [] {
      ValuesIgnoreCaptions(items[1..], vConv, c1, c2, q1, q2);
    }
  }

  /** The captions depend on the caption converter and the query alone: another
      value converter leaves them as they were. */
  lemma {:induction false} CaptionsIgnoreValues<T>(items: seq<T>, v1: T -> string, v2: T -> string,
                                                  cConv: (T, string) -> string, query: string)
    ensures Captions(ToSuggestionData(items, v1, cConv, query)) == Captions(ToSuggestionData(items, v2, cConv, query))
  {
    if items != [] {
      CaptionsIgnoreValues(items[1..], v1, v2, cConv, query);
    }
  }
}

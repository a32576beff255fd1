/**
 * `PowerProfile`: the XML parser delegate that collects a power profile
 * from the meter's `getPowerProfile` response. The parser itself reports
 * three kinds of events to it: the start of an element, a run of character
 * data, and the end of an element. The delegate keeps four fields: the
 * readings `v` collected so far, the profile's start time `startts`, the
 * character data `input` gathered since the last reset, and whether the
 * parser is inside the `header` element.
 *
 * `Step` is the effect of one event on those fields; the class's handler
 * methods are proved to have exactly that effect. Converting text to a
 * number (a number formatter in the Swift code) is a function supplied when
 * the delegate is created, because its behaviour is not part of this model.
 */
module Profile {
  import opened Wrappers

  /** One parser callback. */
  datatype Event =
    | StartElement(name: string)
    | Characters(text: string)
    | EndElement(name: string)

  /** The delegate's fields. */
  datatype ProfileState = ProfileState(v: seq<int>, startts: int, input: string, inHeader: bool)

  /** The fields of a freshly created delegate. */
  const Initial := ProfileState([], 0, "", false)

  /**
   * The effect of one callback. Character data is appended to `input`.
   * Starting `header` enters the header; starting anything else clears
   * `input`. Ending `header` leaves the header; ending `v` outside the
   * header appends the parsed reading; ending `startts` inside the header
   * stores the parsed start time; ending anything else clears `input`.
   */
  function Step(st: ProfileState, e: Event, parseInt: string -> Option<int>): ProfileState
  {
    match e
    case Characters(text) =>
      st.(input := st.input + text)
    case StartElement(name) =>
      if name == "header" then st.(inHeader := true) else st.(input := "")
    case EndElement(name) =>
      if name == "header" then
        st.(inHeader := false)
      else if name == "v" then
        if !st.inHeader && parseInt(st.input).Some? then st.(v := st.v + [parseInt(st.input).value]) else st
      else if name == "startts" then
        if st.inHeader && parseInt(st.input).Some? then st.(startts := parseInt(st.input).value) else st
      else
        st.(input := "")
  }

  /** What one callback may change, and how. */
  lemma StepChanges(st: ProfileState, e: Event, parseInt: string -> Option<int>)
    // readings are only ever appended, one at a time, and only at the end of a `v` outside the header
    ensures st.v <= Step(st, e, parseInt).v && |Step(st, e, parseInt).v| <= |st.v| + 1
    ensures Step(st, e, parseInt).v != st.v ==> e == EndElement("v") && !st.inHeader && parseInt(st.input) == Some(Step(st, e, parseInt).v[|st.v|])
    // the start time changes only at the end of `startts` inside the header, to the parsed value
    ensures Step(st, e, parseInt).startts != st.startts ==> e == EndElement("startts") && st.inHeader && parseInt(st.input) == Some(Step(st, e, parseInt).startts)
    // the header flag follows the `header` element
    ensures Step(st, e, parseInt).inHeader != st.inHeader ==> !e.Characters? && e.name == "header" && Step(st, e, parseInt).inHeader == e.StartElement?
    // `input` only grows by character data or is cleared
    ensures Step(st, e, parseInt).input != st.input ==> (e.Characters? && Step(st, e, parseInt).input == st.input + e.text) || (!e.Characters? && Step(st, e, parseInt).input == "")
  {
  }

  /** The fields after the callbacks `events`, in order. */
  function Run(st: ProfileState, events: seq<Event>, parseInt: string -> Option<int>): ProfileState
    decreases |events|
  {
    if events == [] then st else Run(Step(st, events[0], parseInt), events[1..], parseInt)
  }

  /** Running two stretches of callbacks one after the other is running them together. */
  lemma {:induction false} RunConcat(st: ProfileState, a: seq<Event>, b: seq<Event>, parseInt: string -> Option<int>)
    ensures Run(st, a + b, parseInt) == Run(Run(st, a, parseInt), b, parseInt)
    decreases |a|
  {
    if a == [] {
      assert a + b == b;
    } else {
      assert (a + b)[0] == a[0];
      assert (a + b)[1..] == a[1..] + b;
      RunConcat(Step(st, a[0], parseInt), a[1..], b, parseInt);
    }
  }

  /** A single callback is one step. */
  lemma RunOne(st: ProfileState, e: Event, parseInt: string -> Option<int>)
    ensures Run(st, [e], parseInt) == Step(st, e, parseInt)
  {
    assert [e][1..] == [];
  }

  /** No sequence of callbacks removes or reorders a collected reading. */
  lemma {:induction false} RunOnlyAppends(st: ProfileState, events: seq<Event>, parseInt: string -> Option<int>)
    ensures st.v <= Run(st, events, parseInt).v
    decreases |events|
  {
    if events != [] {
      RunOnlyAppends(Step(st, events[0], parseInt), events[1..], parseInt);
    }
  }

  /** Inside the header, until it ends, the readings do not change. */
  lemma {:induction false} HeaderKeepsReadings(st: ProfileState, events: seq<Event>, parseInt: string -> Option<int>)
    requires st.inHeader
    requires forall i :: 0 <= i < |events| ==> events[i] != EndElement("header")
    ensures Run(st, events, parseInt).v == st.v
    ensures Run(st, events, parseInt).inHeader
    decreases |events|
  {
    if events != [] {
      HeaderKeepsReadings(Step(st, events[0], parseInt), events[1..], parseInt);
    }
  }

  /** One callback per chunk of character data. */
  function TextEvents(chunks: seq<string>): seq<Event>
  {
    if chunks == [] then [] else [Characters(chunks[0])] + TextEvents(chunks[1..])
  }

  /** The chunks joined in order. */
  function Concat(chunks: seq<string>): string
  {
    if chunks == [] then "" else chunks[0] + Concat(chunks[1..])
  }

  /**
   * The parser may split an element's text over several callbacks; they
   * add up to the whole text in `input` and change nothing else.
   */
  lemma {:induction false} TextAccumulates(st: ProfileState, chunks: seq<string>, parseInt: string -> Option<int>)
    ensures Run(st, TextEvents(chunks), parseInt) == st.(input := st.input + Concat(chunks))
    decreases |chunks|
  {
    if chunks != [] {
      var rest := TextEvents(chunks[1..]);
      var next := st.(input := st.input + chunks[0]);
      assert TextEvents(chunks)[0] == Characters(chunks[0]);
      assert TextEvents(chunks)[1..] == rest;
      assert Step(st, Characters(chunks[0]), parseInt) == next;
      assert Run(st, TextEvents(chunks), parseInt) == Run(next, rest, parseInt);
      TextAccumulates(next, chunks[1..], parseInt);
      assert Concat(chunks) == chunks[0] + Concat(chunks[1..]);
      assert st.input + chunks[0] + Concat(chunks[1..]) == st.input + Concat(chunks);
    }
  }

  /** The callbacks for `<name>text</name>`, the text split into `chunks`. */
  function ElementEvents(name: string, chunks: seq<string>): seq<Event>
  {
    [StartElement(name)] + TextEvents(chunks) + [EndElement(name)]
  }

  /**
   * A `v` element outside the header appends its parsed text to the
   * readings when it parses, and leaves them as they were when it does not;
   * `input` is left holding the text, and the start time and the header
   * flag are untouched.
   */
  lemma ValueElement(st: ProfileState, chunks: seq<string>, parseInt: string -> Option<int>)
    requires !st.inHeader
    ensures Run(st, ElementEvents("v", chunks), parseInt)
         == st.(v := st.v + (if parseInt(Concat(chunks)).Some? then [parseInt(Concat(chunks)).value] else []),
                input := Concat(chunks))
  {
    var started := st.(input := "");
    RunOne(st, StartElement("v"), parseInt);
    RunConcat(st, [StartElement("v")] + TextEvents(chunks), [EndElement("v")], parseInt);
    RunConcat(st, [StartElement("v")], TextEvents(chunks), parseInt);
    TextAccumulates(started, chunks, parseInt);
    assert "" + Concat(chunks) == Concat(chunks);
    RunOne(started.(input := Concat(chunks)), EndElement("v"), parseInt);
  }

  /** The plainest case: `<v>s</v>` outside the header, `s` parsing as `n`, appends exactly `n`. */
  lemma ValueElementAppends(st: ProfileState, s: string, n: int, parseInt: string -> Option<int>)
    requires !st.inHeader && parseInt(s) == Some(n)
    ensures Run(st, [StartElement("v"), Characters(s), EndElement("v")], parseInt).v == st.v + [n]
  {
    ValueElement(st, [s], parseInt);
    assert [s][1..] == [];
    assert Concat([s]) == s + "" == s;
    assert TextEvents([s]) == [Characters(s)];
    assert ElementEvents("v", [s]) == [StartElement("v"), Characters(s), EndElement("v")];
  }

  /**
   * The callbacks for a `header` element holding a `startts` element, with
   * character data `lead` before it and `trail` after it (such as the line
   * breaks and indentation of the response); the start time is split into
   * `chunks`.
   */
  function HeaderEvents(lead: seq<string>, chunks: seq<string>, trail: seq<string>): seq<Event>
  {
    [StartElement("header")] + TextEvents(lead) + ElementEvents("startts", chunks) + TextEvents(trail)
      + [EndElement("header")]
  }

  /**
   * Inside the header, a `startts` element stores its parsed text as the
   * start time (or keeps the old one when the text does not parse) and
   * leaves `input` holding the text; the readings and the flag are untouched.
   */
  lemma StartTimeElement(st: ProfileState, chunks: seq<string>, parseInt: string -> Option<int>)
    requires st.inHeader
    ensures Run(st, ElementEvents("startts", chunks), parseInt)
         == st.(startts := if parseInt(Concat(chunks)).Some? then parseInt(Concat(chunks)).value else st.startts,
                input := Concat(chunks))
  {
    var started := st.(input := "");
    RunOne(st, StartElement("startts"), parseInt);
    RunConcat(st, [StartElement("startts")] + TextEvents(chunks), [EndElement("startts")], parseInt);
    RunConcat(st, [StartElement("startts")], TextEvents(chunks), parseInt);
    TextAccumulates(started, chunks, parseInt);
    assert "" + Concat(chunks) == Concat(chunks);
    RunOne(started.(input := Concat(chunks)), EndElement("startts"), parseInt);
  }

  /**
   * A `header` element holding a `startts` element, with any character data
   * around it, stores the parsed start time (or keeps the old one when the
   * text does not parse), leaves the readings alone, and ends outside the
   * header again.
   */
  lemma HeaderStartTime(st: ProfileState, lead: seq<string>, chunks: seq<string>, trail: seq<string>,
                        parseInt: string -> Option<int>)
    ensures Run(st, HeaderEvents(lead, chunks, trail), parseInt).startts
         == (if parseInt(Concat(chunks)).Some? then parseInt(Concat(chunks)).value else st.startts)
    ensures Run(st, HeaderEvents(lead, chunks, trail), parseInt).v == st.v
    ensures !Run(st, HeaderEvents(lead, chunks, trail), parseInt).inHeader
  {
    var opening := [StartElement("header")];
    var e1 := opening + TextEvents(lead);
    var e2 := e1 + ElementEvents("startts", chunks);
    var e3 := e2 + TextEvents(trail);
    var inside := st.(inHeader := true);
    RunOne(st, StartElement("header"), parseInt);
    var afterLead := inside.(input := inside.input + Concat(lead));
    TextAccumulates(inside, lead, parseInt);
    RunConcat(st, opening, TextEvents(lead), parseInt);
    var afterStart := Run(afterLead, ElementEvents("startts", chunks), parseInt);
    StartTimeElement(afterLead, chunks, parseInt);
    RunConcat(st, e1, ElementEvents("startts", chunks), parseInt);
    var afterTrail := afterStart.(input := afterStart.input + Concat(trail));
    TextAccumulates(afterStart, trail, parseInt);
    RunConcat(st, e2, TextEvents(trail), parseInt);
    RunOne(afterTrail, EndElement("header"), parseInt);
    RunConcat(st, e3, [EndElement("header")], parseInt);
  }

  /**
   * A piece of the document outside the header: a reading, any other
   * element holding only text, character data between elements (such as
   * the line breaks and indentation of the response), or the start or the
   * end of an element that encloses others (such as the document's root).
   */
  datatype BodyItem =
    | Reading(chunks: seq<string>)
    | Other(name: string, chunks: seq<string>)
    | Text(chunks: seq<string>)
    | Open(name: string)
    | Close(name: string)

  /** A named body item is not a `v` and does not open or close the header. */
  predicate Plain(item: BodyItem)
  {
    (item.Other? || item.Open? || item.Close?) ==> item.name != "v" && item.name != "header"
  }

  /** The callbacks for one body item. */
  function ItemEvents(item: BodyItem): seq<Event>
  {
    match item
    case Reading(chunks) => ElementEvents("v", chunks)
    case Other(name, chunks) => ElementEvents(name, chunks)
    case Text(chunks) => TextEvents(chunks)
    case Open(name) => [StartElement(name)]
    case Close(name) => [EndElement(name)]
  }

  /** The callbacks for a list of body items, in order. */
  function BodyEvents(items: seq<BodyItem>): seq<Event>
  {
    if items == [] then [] else ItemEvents(items[0]) + BodyEvents(items[1..])
  }

  /** The reading an item contributes: its parsed text if it is a `v` that parses. */
  function ItemReadings(item: BodyItem, parseInt: string -> Option<int>): seq<int>
  {
    if item.Reading? && parseInt(Concat(item.chunks)).Some? then [parseInt(Concat(item.chunks)).value] else []
  }

  /** The readings of the body, in order, that parse. */
  function ParsedReadings(items: seq<BodyItem>, parseInt: string -> Option<int>): seq<int>
  {
    if items == [] then [] else ItemReadings(items[0], parseInt) + ParsedReadings(items[1..], parseInt)
  }

  /**
   * The fields after one body item, outside the header: the item's reading
   * (if any) is appended and `input` is left holding what the item's end
   * leaves there.
   */
  function ItemStep(st: ProfileState, item: BodyItem, parseInt: string -> Option<int>): ProfileState
  {
    match item
    case Reading(chunks) => st.(v := st.v + ItemReadings(item, parseInt), input := Concat(chunks))
    case Other(name, chunks) => st.(input := if name == "startts" then Concat(chunks) else "")
    case Text(chunks) => st.(input := st.input + Concat(chunks))
    case Open(_) => st.(input := "")
    case Close(name) => st.(input := if name == "startts" then st.input else "")
  }

  /** One body item's callbacks, outside the header, have the effect `ItemStep`. */
  lemma ItemEffect(st: ProfileState, item: BodyItem, parseInt: string -> Option<int>)
    requires !st.inHeader && Plain(item)
    ensures Run(st, ItemEvents(item), parseInt) == ItemStep(st, item, parseInt)
  {
    match item
    case Reading(chunks) =>
      ValueElement(st, chunks, parseInt);
    case Other(name, chunks) =>
      OtherElement(st, name, chunks, parseInt);
    case Text(chunks) =>
      TextAccumulates(st, chunks, parseInt);
    case Open(name) =>
      RunOne(st, StartElement(name), parseInt);
    case Close(name) =>
      RunOne(st, EndElement(name), parseInt);
  }

  /** The fields after a body, item by item. */
  function RunItems(st: ProfileState, items: seq<BodyItem>, parseInt: string -> Option<int>): ProfileState
    decreases |items|
  {
    if items == [] then st else RunItems(ItemStep(st, items[0], parseInt), items[1..], parseInt)
  }

  /** Every item of the body is plain. */
  predicate PlainBody(items: seq<BodyItem>)
  {
    forall i :: 0 <= i < |items| ==> Plain(items[i])
  }

  /** Outside the header, running a body's callbacks is running its items one after the other. */
  lemma {:induction false} RunBodyByItems(st: ProfileState, items: seq<BodyItem>, parseInt: string -> Option<int>)
    requires !st.inHeader && PlainBody(items)
    ensures Run(st, BodyEvents(items), parseInt) == RunItems(st, items, parseInt)
    decreases |items|
  {
    if items != [] {
      var first, rest := items[0], items[1..];
      assert Plain(first);
      assert PlainBody(rest) by {
        forall i | 0 <= i < |rest| ensures Plain(rest[i]) {
          assert rest[i] == items[i + 1];
        }
      }
      RunConcat(st, ItemEvents(first), BodyEvents(rest), parseInt);
      ItemEffect(st, first, parseInt);
      RunBodyByItems(ItemStep(st, first, parseInt), rest, parseInt);
    }
  }

  /**
   * Outside the header, the readings collected over a body are the old
   * ones followed by exactly the body's parseable `v` values, in document
   * order; elements of other names contribute nothing.
   */
  lemma BodyCollectsReadings(st: ProfileState, items: seq<BodyItem>, parseInt: string -> Option<int>)
    requires !st.inHeader && PlainBody(items)
    ensures Run(st, BodyEvents(items), parseInt).v == st.v + ParsedReadings(items, parseInt)
    ensures Run(st, BodyEvents(items), parseInt).startts == st.startts
    ensures !Run(st, BodyEvents(items), parseInt).inHeader
  {
    RunBodyByItems(st, items, parseInt);
    ItemsCollectReadings(st, items, parseInt);
  }

  /** `BodyCollectsReadings`, item by item. */
  lemma {:induction false} ItemsCollectReadings(st: ProfileState, items: seq<BodyItem>, parseInt: string -> Option<int>)
    ensures RunItems(st, items, parseInt).v == st.v + ParsedReadings(items, parseInt)
    ensures RunItems(st, items, parseInt).startts == st.startts
    ensures RunItems(st, items, parseInt).inHeader == st.inHeader
    decreases |items|
  {
    if items == [] {
      assert st.v + [] == st.v;
    } else {
      var first, rest := items[0], items[1..];
      var mid := ItemStep(st, first, parseInt);
      assert mid.v == st.v + ItemReadings(first, parseInt);
      assert mid.startts == st.startts && mid.inHeader == st.inHeader;
      assert RunItems(st, items, parseInt) == RunItems(mid, rest, parseInt);
      assert ParsedReadings(items, parseInt) == ItemReadings(first, parseInt) + ParsedReadings(rest, parseInt);
      ItemsCollectReadings(mid, rest, parseInt);
      assert st.v + ItemReadings(first, parseInt) + ParsedReadings(rest, parseInt)
          == st.v + ParsedReadings(items, parseInt);
    }
  }

  /**
   * An element not named `v` or `header`, outside the header, leaves
   * readings, start time and header flag alone; its end clears `input`
   * unless it is a `startts` (whose end outside the header does nothing).
   */
  lemma OtherElement(st: ProfileState, name: string, chunks: seq<string>, parseInt: string -> Option<int>)
    requires !st.inHeader && name != "v" && name != "header"
    ensures Run(st, ElementEvents(name, chunks), parseInt)
         == st.(input := if name == "startts" then Concat(chunks) else "")
  {
    var started := st.(input := "");
    RunOne(st, StartElement(name), parseInt);
    RunConcat(st, [StartElement(name)] + TextEvents(chunks), [EndElement(name)], parseInt);
    RunConcat(st, [StartElement(name)], TextEvents(chunks), parseInt);
    TextAccumulates(started, chunks, parseInt);
    assert "" + Concat(chunks) == Concat(chunks);
    RunOne(started.(input := Concat(chunks)), EndElement(name), parseInt);
  }

  /**
   * The callbacks for a whole response: the body items before the header
   * (among them the start of the root element), the header with its start
   * time and the character data around it, and the body items after it
   * (among them the end of the root).
   */
  function DocumentEvents(before: seq<BodyItem>, lead: seq<string>, startChunks: seq<string>, trail: seq<string>,
                          after: seq<BodyItem>): seq<Event>
  {
    BodyEvents(before) + HeaderEvents(lead, startChunks, trail) + BodyEvents(after)
  }

  /**
   * Over a whole response, the readings gained are exactly the parseable
   * `v` values outside the header, in document order, and the start time
   * is the header's parsed one (or the old one when it does not parse).
   */
  lemma DocumentCollectsReadings(st: ProfileState, before: seq<BodyItem>, lead: seq<string>, startChunks: seq<string>,
                                 trail: seq<string>, after: seq<BodyItem>, parseInt: string -> Option<int>)
    requires !st.inHeader && PlainBody(before) && PlainBody(after)
    ensures Run(st, DocumentEvents(before, lead, startChunks, trail, after), parseInt).v
         == st.v + ParsedReadings(before, parseInt) + ParsedReadings(after, parseInt)
    ensures Run(st, DocumentEvents(before, lead, startChunks, trail, after), parseInt).startts
         == (if parseInt(Concat(startChunks)).Some? then parseInt(Concat(startChunks)).value else st.startts)
    ensures !Run(st, DocumentEvents(before, lead, startChunks, trail, after), parseInt).inHeader
  {
    var header := HeaderEvents(lead, startChunks, trail);
    var head := Run(st, BodyEvents(before), parseInt);
    BodyCollectsReadings(st, before, parseInt);
    var headed := Run(head, header, parseInt);
    HeaderStartTime(head, lead, startChunks, trail, parseInt);
    BodyCollectsReadings(headed, after, parseInt);
    RunConcat(st, BodyEvents(before), header, parseInt);
    RunConcat(st, BodyEvents(before) + header, BodyEvents(after), parseInt);
  }

  /**
   * Whatever the header holds (any elements, `v` among them, and any
   * character data, as long as it does not end the header early), the
   * readings gained over a response are exactly the parseable `v` values
   * outside the header, in document order.
   */
  lemma AnyHeaderCollectsReadings(st: ProfileState, before: seq<BodyItem>, inner: seq<Event>, after: seq<BodyItem>,
                                  parseInt: string -> Option<int>)
    requires !st.inHeader && PlainBody(before) && PlainBody(after)
    requires forall i :: 0 <= i < |inner| ==> inner[i] != EndElement("header")
    ensures Run(st, BodyEvents(before) + ([StartElement("header")] + inner + [EndElement("header")])
                    + BodyEvents(after), parseInt).v
         == st.v + ParsedReadings(before, parseInt) + ParsedReadings(after, parseInt)
    ensures !Run(st, BodyEvents(before) + ([StartElement("header")] + inner + [EndElement("header")])
                     + BodyEvents(after), parseInt).inHeader
  {
    var opening := [StartElement("header")];
    var header := opening + inner + [EndElement("header")];
    var head := Run(st, BodyEvents(before), parseInt);
    BodyCollectsReadings(st, before, parseInt);
    var inside := head.(inHeader := true);
    RunOne(head, StartElement("header"), parseInt);
    var innerDone := Run(inside, inner, parseInt);
    HeaderKeepsReadings(inside, inner, parseInt);
    RunConcat(head, opening, inner, parseInt);
    RunOne(innerDone, EndElement("header"), parseInt);
    RunConcat(head, opening + inner, [EndElement("header")], parseInt);
    var headed := Run(head, header, parseInt);
    BodyCollectsReadings(headed, after, parseInt);
    RunConcat(st, BodyEvents(before), header, parseInt);
    RunConcat(st, BodyEvents(before) + header, BodyEvents(after), parseInt);
  }

  class PowerProfile {
    var v: seq<int>
    var startts: int
    var input: string
    var inHeader: bool
    /** `NSNumberFormatter().numberFromString(s)?.integerValue` */
    const parseInt: string -> Option<int>

    constructor (parseInt: string -> Option<int>)
      ensures State() == Initial
      ensures this.parseInt == parseInt
    {
      v := [];
      startts := 0;
      input := "";
      inHeader := false;
      this.parseInt := parseInt;
    }

    /** The delegate's fields as one value. */
    function State(): ProfileState
      reads this
    {
      ProfileState(v, startts, input, inHeader)
    }

    /** `parser(_:foundCharacters:)`: appends the text to `input`, nothing else changes. */
    method FoundCharacters(text: string)
      modifies this
      ensures input == old(input) + text
      ensures v == old(v) && startts == old(startts) && inHeader == old(inHeader)
      ensures State() == Step(old(State()), Characters(text), parseInt)
    {
      input := input + text;
    }

    /**
     * `parser(_:didStartElement:...)`: `header` enters the header and keeps
     * `input`; any other element clears `input` and keeps the header flag.
     */
    method DidStartElement(elementName: string)
      modifies this
      ensures elementName == "header" ==> inHeader && input == old(input)
      ensures elementName != "header" ==> input == "" && inHeader == old(inHeader)
      ensures v == old(v) && startts == old(startts)
      ensures State() == Step(old(State()), StartElement(elementName), parseInt)
    {
      if elementName == "header" {
        inHeader := true;
      } else {
        input := "";
      }
    }

    /**
     * `parser(_:didEndElement:...)`: `header` leaves the header (without
     * clearing `input`); `v` outside the header appends the parsed reading;
     * `startts` inside the header stores the parsed start time; any other
     * element clears `input`.
     */
    method DidEndElement(elementName: string)
      modifies this
      ensures elementName == "header" ==> !inHeader && v == old(v) && startts == old(startts) && input == old(input)
      ensures elementName == "v" ==>
        && v == (if !old(inHeader) && parseInt(old(input)).Some? then old(v) + [parseInt(old(input)).value] else old(v))
        && startts == old(startts) && input == old(input) && inHeader == old(inHeader)
      ensures elementName == "startts" ==>
        && startts == (if old(inHeader) && parseInt(old(input)).Some? then parseInt(old(input)).value else old(startts))
        && v == old(v) && input == old(input) && inHeader == old(inHeader)
      ensures elementName != "header" && elementName != "v" && elementName != "startts" ==>
        input == "" && v == old(v) && startts == old(startts) && inHeader == old(inHeader)
      ensures State() == Step(old(State()), EndElement(elementName), parseInt)
    {
      if elementName == "header" {
        inHeader := false;
      } else if elementName == "v" {
        if !inHeader {
          var value := parseInt(input);
          if value.Some? {
            v := v + [value.value];
          }
        }
      } else if elementName == "startts" {
        if inHeader {
          var value := parseInt(input);
          if value.Some? {
            startts := value.value;
          }
        }
      } else {
        input := "";
      }
    }
  }
}

# Drawing gallery: drawing record and JSON save step

This project models the core of a desktop gallery of drawings, whose records hold metadata only. It covers two parts:

- The `Drawing` record. It holds a title, a width and height in pixels, an RGB colour and a completion flag. Its setters change fields in place, and renaming also writes an event to the audit log. Its status text, one-line description and JSON object are pure views of the fields.
- The `JsonWriter` save step. It builds the saved document from the gallery's JSON object and the selected drawing. It prints that document through a writer that is constructed, opened, written and closed, and it logs one event per save.

Modules:

- `Wrappers`: `Option` (a Java reference that may be null) and `Outcome` (an operation that may fail).
- `Json`: the abstract JSON value `JVal`, the object type `JObject = map<string, JVal>`, and `Put`, which models `JSONObject.put`.
- `Events`: `EventLog`, the audit log reduced to its event descriptions. The real log is a process-wide singleton. Here it is an object passed to every operation that logs. An operation whose `modifies` clause does not name the log leaves every log unchanged.
- `Decimal`: Java's `%d` rendering of integers, used by `toString`. It comes with a parser and a round-trip proof.
- `Drawings`: the `Drawing` class with its real fields, and `DrawingState`, the value of all fields at once. The pure views are defined on `DrawingState` (`StatusOf`, `Describe`, `Encode`) and exposed by the class functions `Status`, `ToString` and `ToJson`. `Decode` is the reference inverse of `Encode`. The getters are plain reads of the class's fields.
- `Persistence`: `Document`, which builds the saved document, and the `JsonWriter` class. Its state is `Unopened`, `Opened` or `Closed`, and `printed` holds the documents printed through the current writer. `Save` shows how the application's save button drives the protocol.

Java `int` is modelled as the newtype `Int32`. A colour channel takes only the values 0..255, as `java.awt.Color` allows.

## Model

| member | source | states |
|---|---|---|
| `Drawings.Drawing.constructor` | src/main/model/Drawing.java:16-26 | requires width >= 0 and height >= 0 (the documented REQUIRES); stores title, width, height and colour as given, with isComplete false |
| `Drawings.StatusOf` | src/main/model/Drawing.java:47-52 | the status is "Complete" exactly when the state is complete, and "In progress" exactly when it is not |
| `Drawings.Drawing.Status` | src/main/model/Drawing.java:44-52 | the same if-and-only-if, stated on the object's isComplete field |
| `Drawings.Drawing.SetTitle` | src/main/model/Drawing.java:58-61 | appends exactly one event, "Modified drawing: " + the OLD title; then the title is the new one and every other field is unchanged |
| `Drawings.Drawing.SetColor` | src/main/model/Drawing.java:67-69 | only the colour changes; the log is outside its frame, so no event is added |
| `Drawings.Drawing.SetWidth` | src/main/model/Drawing.java:75-77 | only the width changes; no event is added |
| `Drawings.Drawing.SetHeight` | src/main/model/Drawing.java:83-85 | only the height changes; no event is added |
| `Drawings.Drawing.MarkAsComplete` | src/main/model/Drawing.java:91-93 | the flag becomes true and nothing else changes; on a complete drawing the call changes nothing (idempotence); the status is then "Complete" |
| `Drawings.Drawing.ToString` | src/main/model/Drawing.java:98-107 | the text is Describe of the drawing's fields ("Title: %s, Width: %dpx, Height: %dpx, Color: (%d,%d,%d), Status: %s"); it begins with "Title: " and the title, ends with "Status: " and the status text, and no other drawing state has the same text |
| `Drawings.DescribeShape` | src/main/model/Drawing.java:98-107 | the same prefix and suffix facts, for every drawing state |
| `Drawings.DescribeShowsCompletion` | src/main/model/Drawing.java:98-107 | the description ends in "Status: Complete" if and only if the drawing is complete |
| `Drawings.DescribeInjective` | src/main/model/Drawing.java:99-106 | two drawing states with the same description are equal: read from the end, the status, then blue, green, red, height and width, and finally the title are each recovered |
| `Decimal.NatDigits` | src/main/model/Drawing.java:99-106 | the digits of a natural number are non-empty, all decimal digits, and have no leading zero |
| `Decimal.FormatInt` | src/main/model/Drawing.java:99-106 | "%d": non-empty, starts with '-' exactly for negative numbers, and digits follow |
| `Decimal.FormatIntRoundTrip` | src/main/model/Drawing.java:99-106 | parsing the rendering of any integer gives that integer back |
| `Decimal.FormatIntInjective` | src/main/model/Drawing.java:99-106 | two integers with the same rendering are equal |
| `Decimal.SplitInt` | src/main/model/Drawing.java:99-106 | a "%d" number written after a separator that is neither a digit nor a minus sign splits off one way only and determines the number |
| `Json.Put` | src/main/model/Drawing.java:114-120 | put adds or overwrites exactly one key and keeps every other key's value |
| `Drawings.Drawing.ToJson` | src/main/model/Drawing.java:112-122 | the object has exactly the seven keys title, width, height, red, green, blue and isComplete; decoding it recovers every field of the drawing |
| `Drawings.EncodeShape` | src/main/model/Drawing.java:112-122 | for every state, the encoding has exactly the seven keys and decodes back to that state |
| `Drawings.DecodeOnlyEncodings` | src/main/model/Drawing.java:112-122 | every object that decodes re-encodes to itself, so decoding and encoding are mutually inverse |
| `Persistence.JsonWriter.constructor` | src/main/persistence/JsonWriter.java:21-23 | records the destination; no writer is open and nothing is printed |
| `Persistence.JsonWriter.Open` | src/main/persistence/JsonWriter.java:29-31 | if the destination is writable, a writer is open and the file is empty; otherwise FileNotFound is returned and the state is unchanged |
| `Persistence.SelectedTitle` | src/main/persistence/JsonWriter.java:39-42 | absent exactly when no drawing is selected, otherwise the drawing's current title |
| `Persistence.Document` | src/main/persistence/JsonWriter.java:38-43 | the gallery's keys plus "selectedDrawingTitle"; that key holds JSON null when nothing is selected, and the selected title otherwise; every other key keeps the gallery's value |
| `Persistence.DocumentRoundTrip` | src/main/persistence/JsonWriter.java:38-44 | reading the selection back from a saved document gives the selection written; removing the key gives back a gallery object that did not have one |
| `Persistence.JsonWriter.Write` | src/main/persistence/JsonWriter.java:37-45 | requires a prior open; appends exactly one "Gallery saved to file" event, and an open writer receives exactly one document, Document(gallery, selection) |
| `Persistence.JsonWriter.SaveToFile` | src/main/persistence/JsonWriter.java:59-62 | logs exactly one save event and prints the document into an open writer; a closed writer prints nothing |
| `Persistence.JsonWriter.Close` | src/main/persistence/JsonWriter.java:51-53 | requires a prior open; afterwards the writer is closed and what was printed stays |
| `Persistence.Save` | src/main/ui/UserInterface.java:150-159 | open, write, close on the save file; if the file is writable, the file holds exactly one document and one event is logged; otherwise nothing is logged or printed |

## Left out

- File I/O: `PrintWriter` and `File` are not modelled. The file is the writer's `printed` sequence. Whether it can be opened is the parameter `writable`, and `FileNotFoundException` is modelled as the result `Fail(FileNotFound(destination))`.
- Text layout: the output of `JSONObject.toString(TAB)` is library formatting, with unordered keys and four-space indentation. The buffer holds the abstract documents, not their text.
- PrintWriter buffering: printed text may stay buffered until `close` flushes it (a large document reaches the file in part as the buffer fills). The model treats printed documents as in the file at once. Writing after `close` prints nothing, because PrintWriter swallows the "stream closed" error; the model keeps this.
- Persistence.JsonWriter.Write: calling it before `open` is excluded by its requires. In Java that call logs the save event and then throws a NullPointerException.
- Persistence.JsonWriter.Close: calling it before `open` is excluded by its requires. In Java that call throws a NullPointerException.
- Event timestamps come from the system clock, so events are modelled by description only.
- `Gallery`, `EventLog`, `Event` and `JsonReader` are not part of this model. The gallery enters only as its JSON object, an abstract input map. The log is a stand-in `seq<string>`.
- Null values: Dafny strings and colours cannot be null. In Java, a null title in `toJson` or in `write` would remove the key instead of storing it.
- Strings: a Dafny `string` is a sequence of Unicode scalar values, while a Java `String` is a sequence of UTF-16 code units. Lone surrogates cannot be represented, and `|title|` counts code points where `title.length()` counts code units. No modelled behaviour depends on this.
- Locale: `String.format` could render digits in a locale with non-ASCII digits. The model uses ASCII decimal digits.
- The graphical shell in src/main/ui/UserInterface.java is not modelled. The exception is its save handler, as `Persistence.Save`.

/** The save step of src/main/persistence/JsonWriter.java: the saved document is the
    gallery's JSON object with the selected drawing's title added, printed through a
    writer that is opened, written and closed. */
module Persistence {
  import opened Wrappers
  import opened Json
  import opened Events
  import Drawings

  const SelectedKey := "selectedDrawingTitle"
  const SavedEvent := "Gallery saved to file"

  /** The file the application saves to. */
  const SaveFile := "./data/save.json"

  /** Why a destination could not be opened for writing. */
  datatype IOError = FileNotFound(destination: string)

  /** Where the writer stands: no writer yet, a writer open on the destination, or a
      writer that has been closed. */
  datatype WriterState = Unopened | Opened | Closed

  /** The title of the selected drawing, or None when nothing is selected. */
  function SelectedTitle(d: Drawings.Drawing?): (t: Option<string>)
    reads d
    ensures t.None? <==> d == null
    ensures d != null ==> t.value == d.title
  {
    if d == null then None else Some(d.title)
  }

  /** The document a save writes: the gallery's object with "selectedDrawingTitle" set
      to the selected title, or to JSON null when nothing is selected. */
  function Document(gallery: JObject, selected: Option<string>): (doc: JObject)
    ensures doc.Keys == gallery.Keys + {SelectedKey}
    ensures doc[SelectedKey] == (if selected.None? then JNull else JStr(selected.value))
    ensures forall k :: k in gallery && k != SelectedKey ==> doc[k] == gallery[k]
  {
    if selected.None? then Put(gallery, SelectedKey, JNull)
    else Put(gallery, SelectedKey, JStr(selected.value))
  }

  /** Reads the selection back from a saved document. */
  function ReadSelectedTitle(doc: JObject): Option<string> {
    if SelectedKey in doc && doc[SelectedKey].JStr? then Some(doc[SelectedKey].s) else None
  }

  /** Removes the selection key, leaving the gallery's own part of a document. */
  function GalleryPart(doc: JObject): JObject {
    map k | k in doc && k != SelectedKey :: doc[k]
  }

  /** A saved document gives back the selection it was written with and, when the
      gallery object had no selection key of its own, that gallery object. */
  lemma DocumentRoundTrip(gallery: JObject, selected: Option<string>)
    ensures ReadSelectedTitle(Document(gallery, selected)) == selected
    ensures SelectedKey !in gallery ==> GalleryPart(Document(gallery, selected)) == gallery
  {
  }

  /** A writer for one destination file. `printed` is what has been printed through
      the current writer, as abstract documents, oldest first. */
  class JsonWriter {
    const destination: string
    var state: WriterState
    var printed: seq<JObject>

    /** Records the destination; no writer is open yet. */
    constructor (destination: string)
      ensures this.destination == destination
      ensures state == Unopened && printed == []
    {
      this.destination := destination;
      state := Unopened;
      printed := [];
    }

    /** Opens a writer on the destination, emptying the file. `writable` is the file
        system's answer; when it refuses, nothing changes and FileNotFound is returned. */
    method Open(writable: bool) returns (r: Outcome<IOError>)
      modifies this
      ensures r == (if writable then Pass else Fail(FileNotFound(destination)))
      ensures writable ==> state == Opened && printed == []
      ensures !writable ==> state == old(state) && printed == old(printed)
    {
      if writable {
        state := Opened;
        printed := [];
        r := Pass;
      } else {
        r := Fail(FileNotFound(destination));
      }
    }

    /** Saves the gallery's object with the selection added. It logs one save event;
        an open writer also receives the document, a closed one drops it. */
    method Write(gallery: JObject, selected: Drawings.Drawing?, log: EventLog)
      requires state != Unopened
      modifies this`printed, log
      ensures log.events == old(log.events) + [SavedEvent]
      ensures printed == if state == Opened then old(printed) + [Document(gallery, SelectedTitle(selected))]
                         else old(printed)
    {
      var doc := Document(gallery, SelectedTitle(selected));
      SaveToFile(doc, log);
    }

    /** Logs the save event, then prints the document through the writer. */
    method SaveToFile(doc: JObject, log: EventLog)
      requires state != Unopened
      modifies this`printed, log
      ensures log.events == old(log.events) + [SavedEvent]
      ensures printed == if state == Opened then old(printed) + [doc] else old(printed)
    {
      log.LogEvent(SavedEvent);
      if state == Opened {
        printed := printed + [doc];
      }
    }

    /** Closes the writer; what was printed stays in the file. */
    method Close()
      requires state != Unopened
      modifies this`state
      ensures state == Closed
    {
      state := Closed;
    }
  }

  /** The application's save action: open a writer on the save file, write, close.
      A refused open abandons the save before anything is logged. */
  method Save(gallery: JObject, selected: Drawings.Drawing?, writable: bool, log: EventLog)
    returns (w: JsonWriter)
    modifies log
    ensures fresh(w) && w.destination == SaveFile
    ensures writable ==> w.state == Closed && w.printed == [Document(gallery, SelectedTitle(selected))]
                         && log.events == old(log.events) + [SavedEvent]
    ensures !writable ==> w.state == Unopened && w.printed == [] && log.events == old(log.events)
  {
    w := new JsonWriter(SaveFile);
    var r := w.Open(writable);
    if r.Pass? {
      w.Write(gallery, selected, log);
      w.Close();
    }
  }
}

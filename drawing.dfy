/** The drawing metadata record of src/main/model/Drawing.java. */
module Drawings {
  import opened Wrappers
  import opened Json
  import opened Events
  import Decimal

  /** Java's 32-bit int. */
  newtype Int32 = x: int | -0x8000_0000 <= x < 0x8000_0000

  /** A colour channel; java.awt.Color only holds values 0..255. */
  type Channel = x: int | 0 <= x < 256

  /** An RGB colour. */
  datatype Color = Color(red: Channel, green: Channel, blue: Channel)

  /** The value of all of a drawing's fields at one moment. */
  datatype DrawingState = DrawingState(title: string, width: Int32, height: Int32, color: Color, isComplete: bool)

  const Complete := "Complete"
  const InProgress := "In progress"
  const RenamePrefix := "Modified drawing: "

  /** The keys of a drawing's JSON object. */
  const DrawingKeys: set<string> := {"title", "width", "height", "red", "green", "blue", "isComplete"}

  /** The status text of a drawing in state s. */
  function StatusOf(s: DrawingState): (status: string)
    ensures status == Complete <==> s.isComplete
    ensures status == InProgress <==> !s.isComplete
  {
    if s.isComplete then Complete else InProgress
  }

  /** The one-line description of a drawing in state s, laid out as
      "Title: %s, Width: %dpx, Height: %dpx, Color: (%d,%d,%d), Status: %s". */
  function Describe(s: DrawingState): string {
    UpToBlue(s) + Decimal.FormatInt(s.color.blue) + "), Status: " + StatusOf(s)
  }

  /** The description up to each of its numbers. */
  function UpToWidth(s: DrawingState): string {
    "Title: " + s.title + ", Width: "
  }

  function UpToHeight(s: DrawingState): string {
    UpToWidth(s) + Decimal.FormatInt(s.width as int) + "px, Height: "
  }

  function UpToRed(s: DrawingState): string {
    UpToHeight(s) + Decimal.FormatInt(s.height as int) + "px, Color: ("
  }

  function UpToGreen(s: DrawingState): string {
    UpToRed(s) + Decimal.FormatInt(s.color.red) + ","
  }

  function UpToBlue(s: DrawingState): string {
    UpToGreen(s) + Decimal.FormatInt(s.color.green) + ","
  }

  /** The JSON object of a drawing in state s, built key by key on an empty object. */
  function Encode(s: DrawingState): JObject {
    var j0 := Put(map[], "title", JStr(s.title));
    var j1 := Put(j0, "width", JInt(s.width as int));
    var j2 := Put(j1, "height", JInt(s.height as int));
    var j3 := Put(j2, "red", JInt(s.color.red));
    var j4 := Put(j3, "green", JInt(s.color.green));
    var j5 := Put(j4, "blue", JInt(s.color.blue));
    Put(j5, "isComplete", JBool(s.isComplete))
  }

  predicate IsInt32(v: JVal) {
    v.JInt? && -0x8000_0000 <= v.i < 0x8000_0000
  }

  predicate IsChannel(v: JVal) {
    v.JInt? && 0 <= v.i < 256
  }

  /** Reads a drawing back from a JSON object; None unless the object has exactly the
      drawing keys, each holding a value of the right kind and range. */
  function Decode(j: JObject): Option<DrawingState> {
    if j.Keys == DrawingKeys && j["title"].JStr? && IsInt32(j["width"]) && IsInt32(j["height"])
       && IsChannel(j["red"]) && IsChannel(j["green"]) && IsChannel(j["blue"]) && j["isComplete"].JBool?
    then Some(DrawingState(j["title"].s, j["width"].i as Int32, j["height"].i as Int32,
                           Color(j["red"].i, j["green"].i, j["blue"].i), j["isComplete"].b))
    else None
  }

  /** A drawing: title, size in pixels, colour and completion flag, updated in place. */
  class Drawing {
    var title: string
    var width: Int32
    var height: Int32
    var color: Color
    var isComplete: bool

    /** All fields at once. */
    function Snapshot(): DrawingState
      reads this
    {
      DrawingState(title, width, height, color, isComplete)
    }

    /** A new, not yet complete drawing. The size must not be negative. */
    constructor (title: string, width: Int32, height: Int32, color: Color)
      requires width >= 0 && height >= 0
      ensures Snapshot() == DrawingState(title, width, height, color, false)
    {
      this.title := title;
      this.width := width;
      this.height := height;
      this.color := color;
      this.isComplete := false;
    }

    /** "Complete" exactly when the drawing is complete, otherwise "In progress". */
    function Status(): (status: string)
      reads this
      ensures status == Complete <==> isComplete
      ensures status == InProgress <==> !isComplete
    {
      StatusOf(Snapshot())
    }

    /** Logs the rename under the old title, then changes the title and nothing else. */
    method SetTitle(newTitle: string, log: EventLog)
      modifies this, log
      ensures log.events == old(log.events) + [RenamePrefix + old(title)]
      ensures Snapshot() == old(Snapshot()).(title := newTitle)
    {
      log.LogEvent(RenamePrefix + title);
      title := newTitle;
    }

    /** Changes the colour and nothing else; logs nothing. */
    method SetColor(newColor: Color)
      modifies this
      ensures Snapshot() == old(Snapshot()).(color := newColor)
    {
      color := newColor;
    }

    /** Changes the width and nothing else; logs nothing. */
    method SetWidth(newWidth: Int32)
      modifies this
      ensures Snapshot() == old(Snapshot()).(width := newWidth)
    {
      width := newWidth;
    }

    /** Changes the height and nothing else; logs nothing. */
    method SetHeight(newHeight: Int32)
      modifies this
      ensures Snapshot() == old(Snapshot()).(height := newHeight)
    {
      height := newHeight;
    }

    /** Marks the drawing complete and changes nothing else; on a drawing that is
        already complete it changes nothing at all. */
    method MarkAsComplete()
      modifies this
      ensures Snapshot() == old(Snapshot()).(isComplete := true)
      ensures old(isComplete) ==> Snapshot() == old(Snapshot())
      ensures Status() == Complete
    {
      isComplete := true;
    }

    /** The one-line description, laid out by Describe: it starts with the title, ends
        with the status, and no other drawing state has the same description. */
    function ToString(): (text: string)
      reads this
      ensures |text| > 7 + |title| && text[..7 + |title|] == "Title: " + title
      ensures EndsWith(text, "Status: " + Status())
      ensures text == Describe(Snapshot())
      ensures forall t :: Describe(t) == text ==> t == Snapshot()
    {
      DescribeShape(Snapshot());
      DescribeDetermines(Snapshot());
      Describe(Snapshot())
    }

    /** The JSON object of the drawing: exactly the seven drawing keys, from which
        Decode recovers every field. */
    function ToJson(): (j: JObject)
      reads this
      ensures j.Keys == DrawingKeys
      ensures Decode(j) == Some(Snapshot())
    {
      EncodeShape(Snapshot());
      Encode(Snapshot())
    }
  }

  predicate EndsWith(s: string, suffix: string) {
    |suffix| <= |s| && s[|s| - |suffix|..] == suffix
  }

  /** The description has the title right after "Title: " and the status at its end. */
  lemma DescribeShape(s: DrawingState)
    ensures |Describe(s)| > 7 + |s.title|
    ensures Describe(s)[..7 + |s.title|] == "Title: " + s.title
    ensures EndsWith(Describe(s), "Status: " + StatusOf(s))
  {
    DescribeTitle(s);
    DescribeStatus(s);
  }

  lemma DescribeTitle(s: DrawingState)
    ensures "Title: " + s.title + ", Width: " <= Describe(s)
  {
    var w := UpToWidth(s);
    var h := UpToHeight(s);
    var r := UpToRed(s);
    var g := UpToGreen(s);
    var b := UpToBlue(s);
    ExtendsTwice(w, Decimal.FormatInt(s.width as int), "px, Height: ");
    ExtendsTwice(h, Decimal.FormatInt(s.height as int), "px, Color: (");
    ExtendsTwice(r, Decimal.FormatInt(s.color.red), ",");
    ExtendsTwice(g, Decimal.FormatInt(s.color.green), ",");
    ExtendsTwice(b, Decimal.FormatInt(s.color.blue), "), Status: " + StatusOf(s));
    assert w <= h <= r <= g <= b <= Describe(s);
  }

  lemma DescribeStatus(s: DrawingState)
    ensures EndsWith(Describe(s), "Status: " + StatusOf(s))
  {
    StatusAtEnd(UpToBlue(s) + Decimal.FormatInt(s.color.blue), StatusOf(s));
  }

  lemma StatusAtEnd(z: string, status: string)
    ensures EndsWith(z + "), Status: " + status, "Status: " + status)
  {
    assert z + "), Status: " + status == (z + "), ") + ("Status: " + status);
  }

  lemma ExtendsTwice(a: string, b: string, c: string)
    ensures a <= a + b + c && a + b + c == a + (b + c)
  {
  }

  /** The description ends in "Status: Complete" exactly when the drawing is complete. */
  lemma DescribeShowsCompletion(s: DrawingState)
    ensures EndsWith(Describe(s), "Status: " + Complete) <==> s.isComplete
  {
    DescribeShape(s);
    if !s.isComplete {
      var d := Describe(s);
      var tail := "Status: " + InProgress;
      assert d[|d| - |tail|..] == tail;
      assert d[|d| - 1] == 's';
      assert d[|d| - 2] == 's';
    }
  }

  /** Read from its end, a description gives back every field: the last character
      fixes the status, and each number is the digit run after a fixed separator. */
  lemma DescribeInjective(s: DrawingState, t: DrawingState)
    requires Describe(s) == Describe(t)
    ensures s == t
  {
    var d := Describe(s);
    assert d[|d| - 1] == (if s.isComplete then 'e' else 's');
    assert d[|d| - 1] == (if t.isComplete then 'e' else 's');
    assert StatusOf(s) == StatusOf(t);
    Decimal.SplitSuffix(UpToBlue(s) + Decimal.FormatInt(s.color.blue) + "), Status: ",
                        UpToBlue(t) + Decimal.FormatInt(t.color.blue) + "), Status: ", StatusOf(s));
    Decimal.SplitSuffix(UpToBlue(s) + Decimal.FormatInt(s.color.blue), UpToBlue(t) + Decimal.FormatInt(t.color.blue),
                        "), Status: ");
    Decimal.SplitInt(UpToBlue(s), s.color.blue, UpToBlue(t), t.color.blue);
    Decimal.SplitSuffix(UpToGreen(s) + Decimal.FormatInt(s.color.green), UpToGreen(t) + Decimal.FormatInt(t.color.green), ",");
    Decimal.SplitInt(UpToGreen(s), s.color.green, UpToGreen(t), t.color.green);
    Decimal.SplitSuffix(UpToRed(s) + Decimal.FormatInt(s.color.red), UpToRed(t) + Decimal.FormatInt(t.color.red), ",");
    Decimal.SplitInt(UpToRed(s), s.color.red, UpToRed(t), t.color.red);
    Decimal.SplitSuffix(UpToHeight(s) + Decimal.FormatInt(s.height as int), UpToHeight(t) + Decimal.FormatInt(t.height as int),
                "px, Color: (");
    Decimal.SplitInt(UpToHeight(s), s.height as int, UpToHeight(t), t.height as int);
    Decimal.SplitSuffix(UpToWidth(s) + Decimal.FormatInt(s.width as int), UpToWidth(t) + Decimal.FormatInt(t.width as int),
                "px, Height: ");
    Decimal.SplitInt(UpToWidth(s), s.width as int, UpToWidth(t), t.width as int);
    Decimal.SplitSuffix("Title: " + s.title, "Title: " + t.title, ", Width: ");
    assert s.title == ("Title: " + s.title)[7..];
    assert t.title == ("Title: " + t.title)[7..];
  }

  /** No other drawing state has the description of s. */
  lemma DescribeDetermines(s: DrawingState)
    ensures forall t :: Describe(t) == Describe(s) ==> t == s
  {
    forall t | Describe(t) == Describe(s)
      ensures t == s
    {
      DescribeInjective(t, s);
    }
  }

  /** Encoding holds exactly the drawing keys, and decoding it gives the state back. */
  lemma EncodeShape(s: DrawingState)
    ensures Encode(s).Keys == DrawingKeys
    ensures Decode(Encode(s)) == Some(s)
  {
    var j := Encode(s);
    assert j["title"] == JStr(s.title);
    assert j["width"] == JInt(s.width as int);
    assert j["height"] == JInt(s.height as int);
    assert j["red"] == JInt(s.color.red);
    assert j["green"] == JInt(s.color.green);
    assert j["blue"] == JInt(s.color.blue);
    assert j["isComplete"] == JBool(s.isComplete);
  }

  /** Decode accepts only encodings: whatever it reads back re-encodes to the same object. */
  lemma DecodeOnlyEncodings(j: JObject)
    requires Decode(j).Some?
    ensures Encode(Decode(j).value) == j
  {
  }
}

/**
 * GasLoggerService: turns a typed record or a string-keyed dictionary into the form that is
 * POSTed to the logging endpoint. The form is `sheetName`, then `keys` (the field names
 * joined with ','), then one field per entry holding the value's text. Null or empty input
 * and records without public properties are rejected before anything is sent; a failure of
 * the POST itself is reported and swallowed, so a valid send always completes normally.
 */
module GasLogger {
  import opened Wrappers
  import opened Exceptions
  import opened Transport
  import Text
  import Decimal

  /** A property or dictionary value, classified by what its ToString() gives */
  datatype Value =
    | Null                          // a null reference
    | Str(s: string)                // a string is its own text
    | Integer(i: int)               // any integer type, rendered in decimal
    | Boolean(b: bool)              // rendered "True" or "False"
    | Other(shown: Option<string>)  // any other object; shown is its ToString(), None when that is null

  /** A Dictionary<string, object>, in enumeration order; the operations that take one require distinct keys */
  type Dict = seq<(string, Value)>

  /**
   * A typed record as reflection sees it: the name of its type and its public instance
   * properties (name and current value) in the order GetProperties returns them.
   */
  datatype TypedRecord = TypedRecord(typeName: string, properties: seq<(string, Value)>)

  /** A line written to the Unity console */
  datatype LogLine = Log(text: string) | LogError(text: string)

  /** How a send ends: normally, or by throwing */
  datatype Outcome = Completed | Threw(exception: Exception)

  /** `value?.ToString() ?? "null"` */
  function Render(v: Value): (r: string)
    ensures v.Null? ==> r == "null"
    ensures v.Str? ==> r == v.s
    ensures v.Integer? ==> Decimal.Canonical(r) && Decimal.Parse(r) == Some(v.i)
    ensures v.Boolean? ==> r == (if v.b then "True" else "False")
    ensures v.Other? ==> r == v.shown.GetOr("null")
  {
    match v
    case Null => "null"
    case Str(s) => s
    case Integer(i) => Decimal.ShowParse(Decimal.Show(i), i); Decimal.Show(i)
    case Boolean(b) => if b then "True" else "False"
    case Other(shown) => shown.GetOr("null")
  }

  // ---------------------------------------------------------------- dictionaries

  ghost predicate DistinctKeys(d: seq<(string, Value)>) {
    forall i, j :: 0 <= i < j < |d| ==> d[i].0 != d[j].0
  }

  ghost function KeySet(d: seq<(string, Value)>): set<string> {
    set e | e in d :: e.0
  }

  /** The value stored under k, if any */
  function Lookup(d: Dict, k: string): Option<Value>
    decreases |d|
  {
    if |d| == 0 then None else if d[0].0 == k then Some(d[0].1) else Lookup(d[1..], k)
  }

  /** The value of the last pair named k */
  function LastBinding(props: seq<(string, Value)>, k: string): Option<Value>
    decreases |props|
  {
    if |props| == 0 then None
    else if props[|props| - 1].0 == k then Some(props[|props| - 1].1)
    else LastBinding(props[..|props| - 1], k)
  }

  /** `dict[k] = v`: overwrites the entry in its place when k is present, else appends */
  function Put(d: Dict, k: string, v: Value): Dict
    decreases |d|
  {
    if |d| == 0 then [(k, v)]
    else if d[0].0 == k then [(k, v)] + d[1..]
    else [d[0]] + Put(d[1..], k, v)
  }

  /** The dictionary filled by `dict[name] = value` for each property in turn */
  function PutAll(props: seq<(string, Value)>): Dict
    decreases |props|
  {
    if |props| == 0 then []
    else var last := props[|props| - 1]; Put(PutAll(props[..|props| - 1]), last.0, last.1)
  }

  lemma KeySetCons(e: (string, Value), rest: Dict)
    ensures KeySet([e] + rest) == {e.0} + KeySet(rest)
  {
    assert forall x :: x in [e] + rest <==> x == e || x in rest;
  }

  /** Put adds exactly the key k */
  lemma {:induction false} PutKeySet(d: Dict, k: string, v: Value)
    ensures KeySet(Put(d, k, v)) == KeySet(d) + {k}
    decreases |d|
  {
    if |d| > 0 {
      KeySetCons(d[0], d[1..]);
      assert d == [d[0]] + d[1..];
      if d[0].0 == k {
        KeySetCons((k, v), d[1..]);
      } else {
        PutKeySet(d[1..], k, v);
        KeySetCons(d[0], Put(d[1..], k, v));
      }
    }
  }

  /** In a dictionary with distinct keys, the first key does not recur */
  lemma HeadKeyUnique(d: Dict)
    requires |d| > 0 && DistinctKeys(d)
    ensures d[0].0 !in KeySet(d[1..])
  {
    forall e | e in d[1..] ensures e.0 != d[0].0 {
      var j :| 0 <= j < |d| - 1 && d[1..][j] == e;
      assert d[j + 1] == e;
    }
  }

  /** Putting an entry with a fresh key in front keeps the keys distinct */
  lemma ConsDistinct(e: (string, Value), d: Dict)
    requires DistinctKeys(d) && e.0 !in KeySet(d)
    ensures DistinctKeys([e] + d)
  {
    var r := [e] + d;
    forall i, j | 0 <= i < j < |r| ensures r[i].0 != r[j].0 {
      assert r[j] == d[j - 1];
      if i == 0 {
        assert d[j - 1] in d;
      } else {
        assert r[i] == d[i - 1];
      }
    }
  }

  /** Put keeps the keys distinct */
  lemma {:induction false} PutDistinct(d: Dict, k: string, v: Value)
    requires DistinctKeys(d)
    ensures DistinctKeys(Put(d, k, v))
    decreases |d|
  {
    if |d| > 0 && d[0].0 != k {
      var rest := d[1..];
      assert DistinctKeys(rest);
      PutDistinct(rest, k, v);
      PutKeySet(rest, k, v);
      HeadKeyUnique(d);
      ConsDistinct(d[0], Put(rest, k, v));
    } else if |d| > 0 {
      ConsDistinct((k, v), d[1..]) by {
        assert DistinctKeys(d[1..]);
        HeadKeyUnique(d);
      }
    }
  }

  /** Put of a key not yet present appends it */
  lemma {:induction false} PutFresh(d: Dict, k: string, v: Value)
    requires k !in KeySet(d)
    ensures Put(d, k, v) == d + [(k, v)]
    decreases |d|
  {
    if |d| > 0 {
      KeySetCons(d[0], d[1..]);
      assert d == [d[0]] + d[1..];
      PutFresh(d[1..], k, v);
      assert d + [(k, v)] == [d[0]] + (d[1..] + [(k, v)]);
    }
  }

  /** After Put, k holds v and every other key holds what it held */
  lemma {:induction false} PutLookup(d: Dict, k: string, v: Value, k': string)
    ensures Lookup(Put(d, k, v), k') == if k' == k then Some(v) else Lookup(d, k')
    decreases |d|
  {
    if |d| > 0 && d[0].0 != k {
      PutLookup(d[1..], k, v, k');
      assert Put(d, k, v)[1..] == Put(d[1..], k, v);
    }
  }

  /**
   * The dictionary built from a record's properties has distinct keys, and they are
   * exactly the property names.
   */
  lemma {:induction false} PutAllKeys(props: seq<(string, Value)>)
    ensures DistinctKeys(PutAll(props))
    ensures KeySet(PutAll(props)) == KeySet(props)
    decreases |props|
  {
    if |props| > 0 {
      var init := props[..|props| - 1];
      var last := props[|props| - 1];
      PutAllKeys(init);
      PutKeySet(PutAll(init), last.0, last.1);
      PutDistinct(PutAll(init), last.0, last.1);
      assert props == init + [last];
      assert KeySet(props) == KeySet(init) + {last.0};
    }
  }

  /** Each key of the built dictionary holds the value of the last property of that name */
  lemma {:induction false} PutAllLookup(props: seq<(string, Value)>, k: string)
    ensures Lookup(PutAll(props), k) == LastBinding(props, k)
    decreases |props|
  {
    if |props| > 0 {
      var init := props[..|props| - 1];
      var last := props[|props| - 1];
      PutAllLookup(init, k);
      PutLookup(PutAll(init), last.0, last.1, k);
    }
  }

  /** With distinct property names the dictionary is the property list, in the same order */
  lemma {:induction false} PutAllDistinct(props: seq<(string, Value)>)
    requires DistinctKeys(props)
    ensures PutAll(props) == props
    decreases |props|
  {
    if |props| > 0 {
      var init := props[..|props| - 1];
      var last := props[|props| - 1];
      assert DistinctKeys(init);
      PutAllDistinct(init);
      assert last.0 !in KeySet(init) by {
        forall e | e in init ensures e.0 != last.0 {
          var j :| 0 <= j < |init| && init[j] == e;
          assert props[j] == e;
        }
      }
      PutFresh(init, last.0, last.1);
      assert props == init + [last];
    }
  }

  /** The property loop of `SendLog<T>`: a fresh dictionary filled with `dict[prop.Name] = prop.GetValue(data)` */
  method ToDictionary(props: seq<(string, Value)>) returns (dict: Dict)
    ensures dict == PutAll(props)
    ensures |props| > 0 ==> |dict| > 0
  {
    dict := [];
    for i := 0 to |props|
      invariant dict == PutAll(props[..i])
      invariant i > 0 ==> |dict| > 0
    {
      assert props[..i + 1][..i] == props[..i];
      dict := Put(dict, props[i].0, props[i].1);
    }
    assert props[..|props|] == props;
  }

  // ---------------------------------------------------------------- the form

  /** `data.Keys.ToArray()`: the keys in enumeration order */
  function Keys(d: Dict): seq<string>
    decreases |d|
  {
    if |d| == 0 then [] else Keys(d[..|d| - 1]) + [d[|d| - 1].0]
  }

  /** One form field per entry, named by the key and holding the value's text */
  function ValueFields(d: Dict): Form
    decreases |d|
  {
    if |d| == 0 then [] else ValueFields(d[..|d| - 1]) + [(d[|d| - 1].0, Render(d[|d| - 1].1))]
  }

  /** The form PostData submits for data and sheetName */
  function FormOf(d: Dict, sheetName: Option<string>): Form {
    [("sheetName", sheetName.GetOr("")), ("keys", Text.Join(Keys(d), ","))] + ValueFields(d)
  }

  /** Keys lists the dictionary's keys, one per entry, in enumeration order */
  lemma {:induction false} KeysAt(d: Dict)
    ensures |Keys(d)| == |d| && forall i :: 0 <= i < |d| ==> Keys(d)[i] == d[i].0
    decreases |d|
  {
    if |d| > 0 {
      KeysAt(d[..|d| - 1]);
    }
  }

  /** ValueFields holds one field per entry, named by its key, holding its value's text */
  lemma {:induction false} ValueFieldsAt(d: Dict)
    ensures |ValueFields(d)| == |d|
    ensures forall i :: 0 <= i < |d| ==> ValueFields(d)[i] == (d[i].0, Render(d[i].1))
    decreases |d|
  {
    if |d| > 0 {
      ValueFieldsAt(d[..|d| - 1]);
    }
  }

  /**
   * The posted form is, in order: `sheetName` (empty when null), `keys` (the keys joined
   * by ','), then one field per entry in enumeration order holding the value's text.
   */
  lemma FormShape(d: Dict, sheetName: Option<string>)
    ensures var f := FormOf(d, sheetName);
      && |f| == 2 + |d|
      && f[0] == ("sheetName", if sheetName.Some? then sheetName.value else "")
      && f[1] == ("keys", Text.Join(Keys(d), ","))
      && forall i :: 0 <= i < |d| ==> f[i + 2] == (d[i].0, Render(d[i].1))
  {
    var f := FormOf(d, sheetName);
    var fields := ValueFields(d);
    ValueFieldsAt(d);
    forall i | 0 <= i < |d| ensures f[i + 2] == (d[i].0, Render(d[i].1)) {
      assert f[i + 2] == fields[i];
    }
  }

  /**
   * The receiver can recover the field names from `keys` by splitting at ',', provided
   * no name itself contains ','.
   */
  lemma KeysFieldRoundTrip(d: Dict, sheetName: Option<string>)
    requires |d| > 0
    requires forall i :: 0 <= i < |d| ==> ',' !in d[i].0
    ensures Text.Split(FormOf(d, sheetName)[1].1, ',') == Keys(d)
  {
    var ks := Keys(d);
    KeysAt(d);
    forall k | k in ks ensures ',' !in k {
      var i :| 0 <= i < |ks| && ks[i] == k;
    }
    Text.SplitJoin(ks, ',');
  }

  /** The debug item of one entry: `[key] value` */
  function DebugItem(k: string, v: Value): string {
    "[" + k + "] " + Render(v)
  }

  function DebugItems(d: Dict): seq<string>
    decreases |d|
  {
    if |d| == 0 then [] else DebugItems(d[..|d| - 1]) + [DebugItem(d[|d| - 1].0, d[|d| - 1].1)]
  }

  /** The debug line: the items joined by ", " */
  function DebugLine(d: Dict): string {
    Text.Join(DebugItems(d), ", ")
  }

  /** Every item followed by sep, as the loop accumulates them */
  function Terminated(items: seq<string>, sep: string): string
    decreases |items|
  {
    if |items| == 0 then "" else Terminated(items[..|items| - 1], sep) + items[|items| - 1] + sep
  }

  /** Terminating every item is joining them and adding one more separator */
  lemma {:induction false} TerminatedIsJoin(items: seq<string>, sep: string)
    requires |items| > 0
    ensures Terminated(items, sep) == Text.Join(items, sep) + sep
    decreases |items|
  {
    if |items| > 1 {
      TerminatedIsJoin(items[..|items| - 1], sep);
    }
  }

  /**
   * The accumulated debug text is longer than two characters exactly when there is an
   * entry, and removing its last two characters leaves the debug line.
   */
  lemma TrimmedIsDebugLine(d: Dict)
    ensures var t := Terminated(DebugItems(d), ", ");
      && (|t| > 2 <==> |d| > 0)
      && (|d| > 0 ==> t[..|t| - 2] == DebugLine(d))
  {
    var items := DebugItems(d);
    if |d| > 0 {
      TerminatedIsJoin(items, ", ");
      var t := Terminated(items, ", ");
      assert t == Terminated(items[..|items| - 1], ", ") + items[|items| - 1] + ", ";
      assert |items[|items| - 1]| >= 3;
    }
  }

  /** One more entry adds one value field and one terminated debug item */
  lemma DebugStep(d: Dict, i: nat, logStr: string)
    requires i < |d| && logStr == Terminated(DebugItems(d[..i]), ", ")
    ensures ValueFields(d[..i + 1]) == ValueFields(d[..i]) + [(d[i].0, Render(d[i].1))]
    ensures logStr + (DebugItem(d[i].0, d[i].1) + ", ") == Terminated(DebugItems(d[..i + 1]), ", ")
  {
    assert d[..i + 1][..i] == d[..i];
  }

  /**
   * The body of `PostData` before the POST: builds the form with successive AddField calls while accumulating the
   * debug text, then strips the trailing ", " when the text is longer than two characters;
   * `debug` is the text Debug.Log receives after the `Sending Log: ` prefix, None when nothing
   * was logged.
   */
  method BuildForm(data: Dict, sheetName: Option<string>) returns (form: Form, debug: Option<string>)
    ensures form == FormOf(data, sheetName)
    ensures debug == if |data| > 0 then Some(DebugLine(data)) else None
  {
    form := [];
    form := form + [("sheetName", sheetName.GetOr(""))];
    var keys := Keys(data);
    form := form + [("keys", Text.Join(keys, ","))];
    var header := form;
    var logStr := "";
    for i := 0 to |data|
      invariant form == header + ValueFields(data[..i])
      invariant logStr == Terminated(DebugItems(data[..i]), ", ")
    {
      DebugStep(data, i, logStr);
      var key, value := data[i].0, data[i].1;
      var valueStr := Render(value);
      form := form + [(key, valueStr)];
      logStr := logStr + ("[" + key + "] " + valueStr + ", ");
    }
    assert data[..|data|] == data;
    assert form == FormOf(data, sheetName);
    TrimmedIsDebugLine(data);
    if |logStr| > 2 {
      logStr := logStr[..|logStr| - 2];
      debug := Some(logStr);
    } else {
      debug := None;
    }
  }

  /** The console lines of one PostData: the debug line, then the contained failure if any */
  function PostLogs(d: Dict, failure: Option<string>): seq<LogLine> {
    (if |d| > 0 then [Log("Sending Log: " + DebugLine(d))] else [])
    + (if failure.Some? then [LogError("Log send failed with exception: " + failure.value)] else [])
  }

  // ---------------------------------------------------------------- validation

  /** The dictionary overload before any I/O: the dictionary PostData receives, or the exception */
  function DictionaryPayload(data: Option<Dict>): Result<Dict, Exception> {
    if data.None? || |data.value| == 0 then Err(ArgumentNullException("data")) else Ok(data.value)
  }

  /** The typed overload before any I/O: the dictionary PostData receives, or the exception */
  function TypedPayload(data: Option<TypedRecord>, sheetName: Option<string>): Result<Dict, Exception> {
    if data.None? then Err(ArgumentNullException("data"))
    else if sheetName.None? then Err(ArgumentNullException("sheetName"))
    else if |data.value.properties| == 0 then Err(ArgumentException(data.value.typeName))
    else DictionaryPayload(Some(PutAll(data.value.properties)))
  }

  /** PostData is reached with a non-empty dictionary or not at all, whichever overload is used */
  lemma PayloadNonEmpty(data: Option<TypedRecord>, dict: Option<Dict>, sheetName: Option<string>)
    ensures TypedPayload(data, sheetName).Ok? ==> |TypedPayload(data, sheetName).value| > 0
    ensures DictionaryPayload(dict).Ok? <==> dict.Some? && |dict.value| > 0
  {
  }

  /**
   * A typed record is rejected when null, when the sheet name is null, or when its type has
   * no public properties (naming the type); otherwise the dictionary that is posted has
   * exactly the property names as keys, each holding its property's value, and is the
   * property list itself when the names are distinct.
   */
  lemma TypedPayloadProperties(data: Option<TypedRecord>, sheetName: Option<string>)
    ensures data.None? ==> TypedPayload(data, sheetName) == Err(ArgumentNullException("data"))
    ensures data.Some? && sheetName.None? ==>
      TypedPayload(data, sheetName) == Err(ArgumentNullException("sheetName"))
    ensures data.Some? && sheetName.Some? && |data.value.properties| == 0 ==>
      TypedPayload(data, sheetName) == Err(ArgumentException(data.value.typeName))
    ensures data.Some? && sheetName.Some? && |data.value.properties| > 0 ==>
      var r := TypedPayload(data, sheetName);
      var props := data.value.properties;
      && r.Ok?
      && KeySet(r.value) == KeySet(props) && DistinctKeys(r.value)
      && (forall k :: Lookup(r.value, k) == LastBinding(props, k))
      && (DistinctKeys(props) ==> r.value == props)
  {
    if data.Some? {
      var props := data.value.properties;
      PutAllKeys(props);
      forall k ensures Lookup(PutAll(props), k) == LastBinding(props, k) {
        PutAllLookup(props, k);
      }
      if DistinctKeys(props) {
        PutAllDistinct(props);
      }
      if |props| > 0 {
        assert props[0].0 in KeySet(props);
      }
    }
  }

  /**
   * A null sheet name is refused by the typed overload but accepted by the dictionary
   * overload, which posts an empty sheet name instead.
   */
  lemma NullSheetNameAsymmetry(data: TypedRecord, dict: Dict)
    requires |dict| > 0
    ensures TypedPayload(Some(data), None) == Err(ArgumentNullException("sheetName"))
    ensures DictionaryPayload(Some(dict)) == Ok(dict) && FormOf(dict, None)[0] == ("sheetName", "")
  {
  }

  /**
   * The form posted for a typed record whose property names are distinct and free of ','
   * lists those names, in order, in `keys`, and then one field per property with its text.
   */
  lemma TypedRecordForm(data: TypedRecord, sheetName: string)
    requires |data.properties| > 0 && DistinctKeys(data.properties)
    requires forall i :: 0 <= i < |data.properties| ==> ',' !in data.properties[i].0
    ensures TypedPayload(Some(data), Some(sheetName)).Ok?
    ensures var f := FormOf(TypedPayload(Some(data), Some(sheetName)).value, Some(sheetName));
      var props := data.properties;
      && |f| == 2 + |props|
      && f[0] == ("sheetName", sheetName)
      && f[1].0 == "keys" && Text.Split(f[1].1, ',') == Keys(props)
      && forall i :: 0 <= i < |props| ==> f[i + 2] == (props[i].0, Render(props[i].1))
  {
    PutAllKeys(data.properties);
    PutAllDistinct(data.properties);
    FormShape(data.properties, Some(sheetName));
    KeysFieldRoundTrip(data.properties, Some(sheetName));
  }

  /**
   * The sample PlayLog record (PlayerName, Score, IsClear) sent to sheet "Stage1Clear":
   * its keys travel as "PlayerName,Score,IsClear", the score as its decimal text and a
   * cleared run as "True".
   */
  lemma PlayLogForm(finalScore: int)
    ensures var props := [("PlayerName", Str("Hero_Alpha")), ("Score", Integer(finalScore)), ("IsClear", Boolean(true))];
      var p := TypedPayload(Some(TypedRecord("PlayLog", props)), Some("Stage1Clear"));
      && p.Ok?
      && var f := FormOf(p.value, Some("Stage1Clear"));
      && |f| == 5
      && f[0] == ("sheetName", "Stage1Clear")
      && f[1] == ("keys", "PlayerName,Score,IsClear")
      && f[2] == ("PlayerName", "Hero_Alpha")
      && f[3].0 == "Score" && Decimal.Canonical(f[3].1) && Decimal.Parse(f[3].1) == Some(finalScore)
      && f[4] == ("IsClear", "True")
  {
    var props := [("PlayerName", Str("Hero_Alpha")), ("Score", Integer(finalScore)), ("IsClear", Boolean(true))];
    assert DistinctKeys(props);
    PutAllDistinct(props);
    FormShape(props, Some("Stage1Clear"));
    KeysAt(props);
    assert Keys(props) == ["PlayerName", "Score", "IsClear"];
    PlayLogKeys();
  }

  lemma PlayLogKeys()
    ensures Text.Join(["PlayerName", "Score", "IsClear"], ",") == "PlayerName,Score,IsClear"
  {
    var ks := ["PlayerName", "Score", "IsClear"];
    assert ks[..2][..1] == ["PlayerName"];
    assert ks[..2] == ["PlayerName", "Score"];
  }

  // ---------------------------------------------------------------- the service

  class GasLoggerService {
    const client: GasHttpClient

    constructor (client: GasHttpClient)
      ensures this.client == client
    {
      this.client := client;
    }

    /**
     * SendLog<T>: validates, converts the record's public properties to a dictionary and
     * sends it through the dictionary overload.
     */
    method SendLog(data: Option<TypedRecord>, sheetName: Option<string>) returns (r: Outcome, logs: seq<LogLine>)
      modifies client
      ensures var p := TypedPayload(data, sheetName);
        if p.Err? then
          r == Threw(p.error) && logs == [] && client.posted == old(client.posted)
        else
          && r == Completed
          && client.posted == old(client.posted) + [FormOf(p.value, sheetName)]
          && logs == PostLogs(p.value, client.failure)
      ensures client.queried == old(client.queried) && client.failure == old(client.failure)
      ensures client.rankingReply == old(client.rankingReply)
      ensures client.scoreRankReply == old(client.scoreRankReply)
    {
      if data.None? {
        return Threw(ArgumentNullException("data")), [];
      }
      if sheetName.None? {
        return Threw(ArgumentNullException("sheetName")), [];
      }
      var dataProperties := data.value.properties;
      if |dataProperties| == 0 {
        return Threw(ArgumentException(data.value.typeName)), [];
      }
      var dataDict := ToDictionary(dataProperties);
      PutAllKeys(dataProperties);
      r, logs := SendLogDictionary(Some(dataDict), sheetName);
    }

    /** SendLog(Dictionary): rejects a null or empty dictionary, otherwise posts it */
    method SendLogDictionary(data: Option<Dict>, sheetName: Option<string>) returns (r: Outcome, logs: seq<LogLine>)
      requires data.Some? ==> DistinctKeys(data.value)
      modifies client
      ensures var p := DictionaryPayload(data);
        if p.Err? then
          r == Threw(p.error) && logs == [] && client.posted == old(client.posted)
        else
          && r == Completed
          && client.posted == old(client.posted) + [FormOf(p.value, sheetName)]
          && logs == PostLogs(p.value, client.failure)
      ensures client.queried == old(client.queried) && client.failure == old(client.failure)
      ensures client.rankingReply == old(client.rankingReply)
      ensures client.scoreRankReply == old(client.scoreRankReply)
    {
      if data.None? || |data.value| == 0 {
        return Threw(ArgumentNullException("data")), [];
      }
      logs := PostData(data.value, sheetName);
      r := Completed;
    }

    /** Builds and posts the form; a failing POST is logged and never rethrown */
    method PostData(data: Dict, sheetName: Option<string>) returns (logs: seq<LogLine>)
      requires DistinctKeys(data)
      modifies client
      ensures client.posted == old(client.posted) + [FormOf(data, sheetName)]
      ensures logs == PostLogs(data, client.failure)
      ensures client.queried == old(client.queried) && client.failure == old(client.failure)
      ensures client.rankingReply == old(client.rankingReply)
      ensures client.scoreRankReply == old(client.scoreRankReply)
    {
      var form, debug := BuildForm(data, sheetName);
      logs := [];
      if debug.Some? {
        logs := logs + [Log("Sending Log: " + debug.value)];
      }
      var err := client.PostGas(form);
      if err.Some? {
        logs := logs + [LogError("Log send failed with exception: " + err.value)];
      }
    }
  }
}

/** `IVASSMSClient.load_cookies`: where the cookie JSON comes from, and how a parsed JSON value
    becomes a name-to-value map. Reading the environment and the file and parsing JSON text are
    inputs of the model. */
module Cookies {
  import opened Wrappers
  import opened Text

  /** A parsed JSON value. Object keys are strings; numbers are kept as integers. */
  datatype Json =
    | Null
    | Bool(b: bool)
    | Num(n: int)
    | Str(s: string)
    | Arr(items: seq<Json>)
    | Obj(fields: map<string, Json>)

  /** Cookies by name, as `load_cookies` returns them. */
  type CookieMap = map<string, Json>

  /** The outcome of opening and reading the cookie file: missing (`FileNotFoundError`),
      any other read error, or its text. */
  datatype FileRead = Missing | Unreadable | Contents(text: string)

  /** What one element of a cookie list does to the map being built: nothing, store a cookie,
      or raise (which makes the whole load return `None`). */
  datatype RecordAction = Skip | Put(name: string, value: Json) | Abort

  /** One pass of the list loop: an element that has both a `name` and a `value` entry stores
      the value under the name. Testing for the two entries and reading them follow Python's
      meaning of membership and indexing on each kind of JSON value. */
  function Action(record: Json): (a: RecordAction)
    ensures a.Put? ==>
              && record.Obj? && "name" in record.fields && "value" in record.fields
              && record.fields["name"] == Str(a.name) && record.fields["value"] == a.value
    ensures record.Obj? && "name" in record.fields && "value" in record.fields && record.fields["name"].Str? ==> a.Put?
    ensures record.Obj? && !("name" in record.fields && "value" in record.fields) ==> a.Skip?
    ensures a.Abort? <==>
              || record.Null? || record.Bool? || record.Num?
              || (record.Str? && Contains(record.s, "name") && Contains(record.s, "value"))
              || (record.Arr? && Str("name") in record.items && Str("value") in record.items)
              || (record.Obj? && "name" in record.fields && "value" in record.fields
                  && (record.fields["name"].Arr? || record.fields["name"].Obj?))
  {
    match record
    case Obj(f) =>
      if "name" in f && "value" in f then
        match f["name"]
        case Str(name) => Put(name, f["value"])
        // a list or dict cannot be a dict key: TypeError
        case Arr(_) => Abort
        case Obj(_) => Abort
        // a number, boolean or null name is not a cookie name
        case _ => Skip
      else Skip
    // `in` on a string is a substring test; indexing a string by 'name' raises
    case Str(s) => if Contains(s, "name") && Contains(s, "value") then Abort else Skip
    // `in` on a list is a membership test; indexing a list by 'name' raises
    case Arr(xs) => if Str("name") in xs && Str("value") in xs then Abort else Skip
    // `in` on a number, boolean or None raises
    case _ => Abort
  }

  /** The cookie map after the loop has run over `records`, or `None` if an element raised. */
  function Fold(records: seq<Json>): Option<CookieMap>
    decreases |records|
  {
    if records == [] then Some(map[])
    else
      match Fold(records[..|records| - 1])
      case None => None
      case Some(m) =>
        match Action(records[|records| - 1])
        case Skip => Some(m)
        case Put(name, value) => Some(m[name := value])
        case Abort => None
  }

  /** Element `i` of `records` stores a cookie called `name`. */
  ghost predicate PutsName(records: seq<Json>, i: int, name: string) {
    0 <= i < |records| && Action(records[i]).Put? && Action(records[i]).name == name
  }

  /** Element `i` raises. */
  ghost predicate AbortsAt(records: seq<Json>, i: int) {
    0 <= i < |records| && Action(records[i]).Abort?
  }

  /** Element `i` is the last element of `records` that stores a cookie called `name`, and it
      stores `value`. */
  ghost predicate LastPut(records: seq<Json>, i: int, name: string, value: Json) {
    && 0 <= i < |records| && Action(records[i]) == Put(name, value)
    && forall j :: i < j < |records| ==> !PutsName(records, j, name)
  }

  /** The loop fails exactly when some element of `records` raises. */
  lemma {:induction false} FoldFailsIffAbort(records: seq<Json>)
    ensures Fold(records).None? <==> exists i :: AbortsAt(records, i)
    decreases |records|
  {
    if records != [] {
      var n := |records| - 1;
      var init := records[..n];
      FoldFailsIffAbort(init);
      forall i | AbortsAt(init, i) ensures AbortsAt(records, i) {
        assert init[i] == records[i];
      }
      forall i | 0 <= i < n && AbortsAt(records, i) ensures AbortsAt(init, i) {
        assert init[i] == records[i];
      }
      if Action(records[n]).Abort? {
        assert AbortsAt(records, n);
      }
    }
  }

  /** When the loop succeeds, its keys are exactly the names stored by some element. */
  lemma {:induction false} FoldKeys(records: seq<Json>)
    requires Fold(records).Some?
    ensures forall name :: name in Fold(records).value <==> exists i :: PutsName(records, i, name)
    decreases |records|
  {
    if records != [] {
      var n := |records| - 1;
      var init := records[..n];
      FoldKeys(init);
      var m := Fold(init).value;
      var r := Fold(records).value;
      forall name | name in r ensures exists i :: PutsName(records, i, name) {
        if Action(records[n]).Put? && Action(records[n]).name == name {
          assert PutsName(records, n, name);
        } else {
          var i :| PutsName(init, i, name);
          assert init[i] == records[i];
          assert PutsName(records, i, name);
        }
      }
      forall name, i | PutsName(records, i, name) ensures name in r {
        if i < n {
          assert init[i] == records[i];
          assert PutsName(init, i, name);
        }
      }
    }
  }

  /** When the loop succeeds, each name is bound to the value of the last element that stores
      that name: a later duplicate overwrites an earlier one. */
  lemma {:induction false} FoldLastWins(records: seq<Json>)
    requires Fold(records).Some?
    ensures forall name :: name in Fold(records).value ==> exists i :: LastPut(records, i, name, Fold(records).value[name])
    decreases |records|
  {
    if records != [] {
      var n := |records| - 1;
      var init := records[..n];
      FoldLastWins(init);
      var m := Fold(init).value;
      var r := Fold(records).value;
      forall name | name in r ensures exists i :: LastPut(records, i, name, r[name]) {
        if Action(records[n]).Put? && Action(records[n]).name == name {
          assert LastPut(records, n, name, r[name]);
        } else {
          var i :| LastPut(init, i, name, m[name]);
          assert init[i] == records[i];
          forall j | i < j < |records| ensures !PutsName(records, j, name) {
            if j < n {
              assert init[j] == records[j];
              assert !PutsName(init, j, name);
            }
          }
          assert LastPut(records, i, name, r[name]);
        }
      }
    }
  }

  /** Normalising a parsed value: a JSON object is returned unchanged, a JSON array is folded
      record by record, and any other value is rejected (the `ValueError` the source raises and
      catches itself). */
  function Normalize(raw: Json): (r: Option<CookieMap>)
    ensures raw.Obj? ==> r == Some(raw.fields)
    ensures !raw.Obj? && !raw.Arr? ==> r == None
    ensures raw.Arr? ==> (r == None <==> exists i :: AbortsAt(raw.items, i))
    ensures raw.Arr? && r.Some? ==> forall name :: name in r.value <==> exists i :: PutsName(raw.items, i, name)
    ensures raw.Arr? && r.Some? ==> forall name :: name in r.value ==> exists i :: LastPut(raw.items, i, name, r.value[name])
  {
    match raw
    case Obj(fields) => Some(fields)
    case Arr(records) =>
      FoldFailsIffAbort(records);
      if Fold(records).Some? then FoldKeys(records); FoldLastWins(records); Fold(records)
      else Fold(records)
    case _ => None
  }

  /** The text `load_cookies` parses: a non-empty `COOKIES_JSON` value, otherwise the file's
      contents; `None` when the file is missing or cannot be read. */
  function CookieText(env: Option<string>, file: FileRead): Option<string> {
    if env.Some? && env.value != "" then Some(env.value)
    else if file.Contents? then Some(file.text)
    else None
  }

  /** The result of `load_cookies`: `parse` stands for `json.loads` and yields `None` on
      invalid JSON. */
  function Loaded(env: Option<string>, file: FileRead, parse: string -> Option<Json>): Option<CookieMap> {
    match CookieText(env, file)
    case None => None
    case Some(text) =>
      match parse(text)
      case None => None
      case Some(raw) => Normalize(raw)
  }

  /** A non-empty `COOKIES_JSON` decides the result: the file is never looked at. */
  lemma EnvTakesPrecedence(env: string, f1: FileRead, f2: FileRead, parse: string -> Option<Json>)
    requires env != ""
    ensures Loaded(Some(env), f1, parse) == Loaded(Some(env), f2, parse)
    ensures parse(env).None? ==> Loaded(Some(env), f1, parse) == None
    ensures parse(env).Some? ==> Loaded(Some(env), f1, parse) == Normalize(parse(env).value)
  {
  }

  /** An unset or empty `COOKIES_JSON` falls back to the file, and a missing or unreadable file
      then yields `None`. */
  lemma FileWhenEnvUnset(file: FileRead, parse: string -> Option<Json>)
    ensures Loaded(Some(""), file, parse) == Loaded(None, file, parse)
    ensures !file.Contents? ==> Loaded(None, file, parse) == None
    ensures file.Contents? && parse(file.text).None? ==> Loaded(None, file, parse) == None
    ensures file.Contents? && parse(file.text).Some? ==> Loaded(None, file, parse) == Normalize(parse(file.text).value)
  {
  }

  /** `load_cookies` as the source runs it: pick the text, parse it, and for a list build the
      map in a loop, returning `None` as soon as an element raises. */
  method LoadCookies(env: Option<string>, file: FileRead, parse: string -> Option<Json>) returns (cookies: Option<CookieMap>)
    ensures cookies == Loaded(env, file, parse)
  {
    var raw: Option<Json>;
    if env.Some? && env.value != "" {
      raw := parse(env.value);
    } else if file.Contents? {
      raw := parse(file.text);
    } else {
      return None;
    }
    if raw.None? {
      return None;
    }
    match raw.value {
      case Obj(fields) =>
        return Some(fields);
      case Arr(records) =>
        var acc: CookieMap := map[];
        var i := 0;
        while i < |records|
          invariant 0 <= i <= |records|
          invariant Fold(records[..i]) == Some(acc)
        {
          assert records[..i + 1][..i] == records[..i];
          match Action(records[i]) {
            case Skip =>
            case Put(name, value) =>
              acc := acc[name := value];
            case Abort =>
              assert AbortsAt(records, i);
              FoldFailsIffAbort(records);
              return None;
          }
          i := i + 1;
        }
        assert records[..i] == records;
        return Some(acc);
      case _ =>
        return None;
    }
  }
}

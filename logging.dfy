/**
 * The log sink shared by the exception filter (a console logger) and the
 * request-logging middleware (the application logger service), and the one
 * record shape both of them print for a finished request.
 */
module Logging {
  import opened Text

  /** The two levels the core writes at: `error` and `log` (info). */
  datatype Level = Error | Log

  datatype LogLine = LogLine(level: Level, text: string)

  /** A logger whose only observable effect is the lines appended to it. */
  class Logger {
    var lines: seq<LogLine>

    constructor ()
      ensures lines == []
    {
      lines := [];
    }

    method Error(message: string)
      modifies this
      ensures lines == old(lines) + [LogLine(Level.Error, message)]
    {
      lines := lines + [LogLine(Level.Error, message)];
    }

    method Log(message: string)
      modifies this
      ensures lines == old(lines) + [LogLine(Level.Log, message)]
    {
      lines := lines + [LogLine(Level.Log, message)];
    }
  }

  /** One `Label: value` segment of a request log line. */
  datatype Field = Field(name: string, value: string)

  function ShowField(f: Field): string {
    f.name + ": " + f.value
  }

  /** The fields, shown in order and separated by `" | "`. */
  function JoinFields(fs: seq<Field>): string
    decreases |fs|
  {
    if fs == [] then ""
    else if |fs| == 1 then ShowField(fs[0])
    else ShowField(fs[0]) + " | " + JoinFields(fs[1..])
  }

  /**
   * What a finished request's log line says: request metadata (all values
   * already rendered as text, the JSON ones by `JSON.stringify`), the status,
   * the error text ("" when there is none) and the elapsed milliseconds.
   */
  datatype RequestRecord = RequestRecord(
    verb: string, url: string, ip: string,
    params: string, query: string, body: string, headers: string,
    status: int, error: string, elapsed: int)

  /** The fields every request line has, up to the status code. */
  function HeadFields(r: RequestRecord): seq<Field> {
    [Field("Method", r.verb), Field("URL", r.url), Field("IP", r.ip),
     Field("Params", r.params), Field("Query", r.query), Field("Body", r.body),
     Field("Headers", r.headers), Field("Status Code", IntToString(r.status))]
  }

  /** The record's fields in printing order; the Error field only when there is an error text. */
  function RecordFields(r: RequestRecord): (fs: seq<Field>)
    ensures |fs| == if r.error != "" then 10 else 9
    ensures fs[1] == Field("URL", r.url) && fs[7] == Field("Status Code", IntToString(r.status))
    ensures fs[|fs| - 1] == Field("Elapsed Time", IntToString(r.elapsed) + "ms")
    ensures r.error != "" ==> fs[8] == Field("Error", r.error)
  {
    HeadFields(r)
    + (if r.error != "" then [Field("Error", r.error)] else [])
    + [Field("Elapsed Time", IntToString(r.elapsed) + "ms")]
  }

  function Names(fs: seq<Field>): (ns: seq<string>)
    ensures |ns| == |fs| && forall i :: 0 <= i < |fs| ==> ns[i] == fs[i].name
  {
    seq(|fs|, i requires 0 <= i < |fs| => fs[i].name)
  }

  /** The names come in one fixed order, with "Error" present exactly when the error text is non-empty. */
  lemma RecordNames(r: RequestRecord)
    ensures Names(RecordFields(r)) ==
      ["Method", "URL", "IP", "Params", "Query", "Body", "Headers", "Status Code"]
      + (if r.error != "" then ["Error"] else [])
      + ["Elapsed Time"]
    ensures "Error" in Names(RecordFields(r)) <==> r.error != ""
  {
    var ns := Names(RecordFields(r));
    if r.error == "" {
      assert forall i :: 0 <= i < |ns| ==> ns[i] != "Error";
    } else {
      assert ns[8] == "Error";
    }
  }

  /** A timestamped request log line. */
  function RenderRecord(stamp: string, r: RequestRecord): string {
    "[" + stamp + "] " + JoinFields(RecordFields(r))
  }

  lemma {:induction false} JoinFieldsSnoc(fs: seq<Field>, f: Field)
    requires fs != []
    ensures JoinFields(fs + [f]) == JoinFields(fs) + " | " + ShowField(f)
    decreases |fs|
  {
    if |fs| == 1 {
      assert (fs + [f])[1..] == [f];
    } else {
      var rest := fs[1..];
      assert (fs + [f])[0] == fs[0] && (fs + [f])[1..] == rest + [f];
      JoinFieldsSnoc(rest, f);
      var h := ShowField(fs[0]) + " | ";
      assert JoinFields(fs + [f]) == h + JoinFields(rest + [f]);
      assert JoinFields(fs) == h + JoinFields(rest);
    }
  }

  /** One more field, rendered after a prefix that already ends in a field. */
  lemma RenderSnoc(p: string, fs: seq<Field>, name: string, value: string, sep: string, before: string)
    requires fs != [] && p + JoinFields(fs) == before
    requires sep == " | " + name + ": "
    ensures p + JoinFields(fs + [Field(name, value)]) == before + sep + value
  {
    JoinFieldsSnoc(fs, Field(name, value));
  }

  lemma HeadFieldsText2(stamp: string, r: RequestRecord)
    ensures "[" + stamp + "] " + JoinFields(HeadFields(r)[..2]) ==
      "[" + stamp + "] Method: " + r.verb + " | URL: " + r.url
  {
    var p := "[" + stamp + "] ";
    var f1 := [Field("Method", r.verb)];
    var s1 := "[" + stamp + "] Method: " + r.verb;
    assert p + JoinFields(f1) == s1;
    RenderSnoc(p, f1, "URL", r.url, " | URL: ", s1);
    assert f1 + [Field("URL", r.url)] == HeadFields(r)[..2];
  }

  lemma HeadFieldsText4(stamp: string, r: RequestRecord)
    ensures "[" + stamp + "] " + JoinFields(HeadFields(r)[..4]) ==
      "[" + stamp + "] Method: " + r.verb + " | URL: " + r.url + " | IP: " + r.ip
      + " | Params: " + r.params
  {
    var p := "[" + stamp + "] ";
    var f2 := HeadFields(r)[..2];
    var s2 := "[" + stamp + "] Method: " + r.verb + " | URL: " + r.url;
    HeadFieldsText2(stamp, r);
    var f3, s3 := f2 + [Field("IP", r.ip)], s2 + " | IP: " + r.ip;
    RenderSnoc(p, f2, "IP", r.ip, " | IP: ", s2);
    RenderSnoc(p, f3, "Params", r.params, " | Params: ", s3);
    assert f3 + [Field("Params", r.params)] == HeadFields(r)[..4];
  }

  lemma HeadFieldsText6(stamp: string, r: RequestRecord)
    ensures "[" + stamp + "] " + JoinFields(HeadFields(r)[..6]) ==
      "[" + stamp + "] Method: " + r.verb + " | URL: " + r.url + " | IP: " + r.ip
      + " | Params: " + r.params + " | Query: " + r.query + " | Body: " + r.body
  {
    var p := "[" + stamp + "] ";
    var f4 := HeadFields(r)[..4];
    var s4 := "[" + stamp + "] Method: " + r.verb + " | URL: " + r.url + " | IP: " + r.ip
      + " | Params: " + r.params;
    HeadFieldsText4(stamp, r);
    var f5, s5 := f4 + [Field("Query", r.query)], s4 + " | Query: " + r.query;
    RenderSnoc(p, f4, "Query", r.query, " | Query: ", s4);
    RenderSnoc(p, f5, "Body", r.body, " | Body: ", s5);
    assert f5 + [Field("Body", r.body)] == HeadFields(r)[..6];
  }

  lemma HeadFieldsText7(stamp: string, r: RequestRecord)
    ensures "[" + stamp + "] " + JoinFields(HeadFields(r)[..7]) ==
      "[" + stamp + "] Method: " + r.verb + " | URL: " + r.url + " | IP: " + r.ip
      + " | Params: " + r.params + " | Query: " + r.query + " | Body: " + r.body
      + " | Headers: " + r.headers
  {
    var f6 := HeadFields(r)[..6];
    var s6 := "[" + stamp + "] Method: " + r.verb + " | URL: " + r.url + " | IP: " + r.ip
      + " | Params: " + r.params + " | Query: " + r.query + " | Body: " + r.body;
    HeadFieldsText6(stamp, r);
    RenderSnoc("[" + stamp + "] ", f6, "Headers", r.headers, " | Headers: ", s6);
    assert f6 + [Field("Headers", r.headers)] == HeadFields(r)[..7];
  }

  lemma HeadFieldsText(stamp: string, r: RequestRecord)
    ensures "[" + stamp + "] " + JoinFields(HeadFields(r)) ==
      "[" + stamp + "] Method: " + r.verb + " | URL: " + r.url + " | IP: " + r.ip
      + " | Params: " + r.params + " | Query: " + r.query + " | Body: " + r.body
      + " | Headers: " + r.headers + " | Status Code: " + IntToString(r.status)
  {
    var f7 := HeadFields(r)[..7];
    var s7 := "[" + stamp + "] Method: " + r.verb + " | URL: " + r.url + " | IP: " + r.ip
      + " | Params: " + r.params + " | Query: " + r.query + " | Body: " + r.body
      + " | Headers: " + r.headers;
    HeadFieldsText7(stamp, r);
    RenderSnoc("[" + stamp + "] ", f7, "Status Code", IntToString(r.status), " | Status Code: ", s7);
    assert f7 + [Field("Status Code", IntToString(r.status))] == HeadFields(r);
  }

  /** The fields up to the optional Error field. */
  lemma FieldsTextToError(stamp: string, r: RequestRecord)
    ensures "[" + stamp + "] " + JoinFields(HeadFields(r) + (if r.error != "" then [Field("Error", r.error)] else [])) ==
      "[" + stamp + "] Method: " + r.verb + " | URL: " + r.url + " | IP: " + r.ip
      + " | Params: " + r.params + " | Query: " + r.query + " | Body: " + r.body
      + " | Headers: " + r.headers + " | Status Code: " + IntToString(r.status)
      + (if r.error != "" then " | Error: " + r.error else "")
  {
    var head := "[" + stamp + "] Method: " + r.verb + " | URL: " + r.url + " | IP: " + r.ip
      + " | Params: " + r.params + " | Query: " + r.query + " | Body: " + r.body
      + " | Headers: " + r.headers + " | Status Code: " + IntToString(r.status);
    HeadFieldsText(stamp, r);
    if r.error != "" {
      RenderSnoc("[" + stamp + "] ", HeadFields(r), "Error", r.error, " | Error: ", head);
    } else {
      assert HeadFields(r) + [] == HeadFields(r);
    }
  }

  /** The rendered record, written out as one template: every field verbatim, in the fixed order. */
  lemma RenderRecordText(stamp: string, r: RequestRecord)
    ensures RenderRecord(stamp, r) ==
      "[" + stamp + "] Method: " + r.verb + " | URL: " + r.url + " | IP: " + r.ip
      + " | Params: " + r.params + " | Query: " + r.query + " | Body: " + r.body
      + " | Headers: " + r.headers + " | Status Code: " + IntToString(r.status)
      + (if r.error != "" then " | Error: " + r.error else "")
      + " | Elapsed Time: " + IntToString(r.elapsed) + "ms"
  {
    var f9 := HeadFields(r) + (if r.error != "" then [Field("Error", r.error)] else []);
    var s9 := "[" + stamp + "] Method: " + r.verb + " | URL: " + r.url + " | IP: " + r.ip
      + " | Params: " + r.params + " | Query: " + r.query + " | Body: " + r.body
      + " | Headers: " + r.headers + " | Status Code: " + IntToString(r.status)
      + (if r.error != "" then " | Error: " + r.error else "");
    FieldsTextToError(stamp, r);
    var el := IntToString(r.elapsed) + "ms";
    RenderSnoc("[" + stamp + "] ", f9, "Elapsed Time", el, " | Elapsed Time: ", s9);
    assert RecordFields(r) == f9 + [Field("Elapsed Time", el)];
  }

  /** `JSON.stringify` of an object whose members are already JSON texts. */
  function JsonObject(members: seq<(string, string)>): string {
    "{" + JsonMembers(members) + "}"
  }

  function JsonMember(m: (string, string)): string {
    "\"" + m.0 + "\":" + m.1
  }

  function JsonMembers(members: seq<(string, string)>): string
    decreases |members|
  {
    if members == [] then ""
    else if |members| == 1 then JsonMember(members[0])
    else JsonMember(members[0]) + "," + JsonMembers(members[1..])
  }

  lemma {:induction false} JsonMembersSnoc(ms: seq<(string, string)>, m: (string, string))
    requires ms != []
    ensures JsonMembers(ms + [m]) == JsonMembers(ms) + "," + JsonMember(m)
    decreases |ms|
  {
    if |ms| == 1 {
      assert (ms + [m])[1..] == [m];
    } else {
      var rest := ms[1..];
      assert (ms + [m])[0] == ms[0] && (ms + [m])[1..] == rest + [m];
      JsonMembersSnoc(rest, m);
      var h := JsonMember(ms[0]) + ",";
      assert JsonMembers(ms + [m]) == h + JsonMembers(rest + [m]);
      assert JsonMembers(ms) == h + JsonMembers(rest);
    }
  }

  /** One more member, written after a prefix that already ends in a member. */
  lemma JsonSnoc(ms: seq<(string, string)>, key: string, value: string, sep: string, before: string)
    requires ms != [] && "{" + JsonMembers(ms) == before
    requires sep == ",\"" + key + "\":"
    ensures "{" + JsonMembers(ms + [(key, value)]) == before + sep + value
  {
    JsonMembersSnoc(ms, (key, value));
  }
}

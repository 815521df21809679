/**
 * One line of CSV: splitting undoes printing. Quoting follows section 2 of RFC 4180, and fields
 * are trimmed of white space after they are split.
 */
module CsvLine {
  /** The white space that trimming removes. */
  predicate IsSpace(c: char) {
    || c in "\t\n\r \U{000B}\U{000C}\U{00A0}\U{1680}\U{2028}\U{2029}\U{202F}\U{205F}\U{3000}\U{FEFF}"
    || '\U{2000}' <= c <= '\U{200A}'
  }

  function TrimStart(s: string): string { if s != "" && IsSpace(s[0]) then TrimStart(s[1..]) else s }

  function TrimEnd(s: string): string { if s != "" && IsSpace(s[|s| - 1]) then TrimEnd(s[..|s| - 1]) else s }

  function Trim(s: string): string { TrimEnd(TrimStart(s)) }

  function TrimEach(fields: seq<string>): seq<string> {
    if fields == [] then [] else [Trim(fields[0])] + TrimEach(fields[1..])
  }

  // ----- splitting -----

  /** The fields of the rest of a line, `cur` being the one under way. */
  function Split(rest: string, cur: string, quoted: bool): seq<string>
    decreases |rest|
  {
    if rest == "" then [cur]
    else
      var ch := rest[0];
      if quoted then
        if ch == '"' && |rest| > 1 && rest[1] == '"' then Split(rest[2..], cur + "\"", true)
        else if ch == '"' then Split(rest[1..], cur, false)
        else Split(rest[1..], cur + [ch], true)
      else if ch == '"' && Trim(cur) == "" then Split(rest[1..], "", true)
      else if ch == ',' then [cur] + Split(rest[1..], "", false)
      else Split(rest[1..], cur + [ch], false)
  }

  function SplitLine(line: string): seq<string> { TrimEach(Split(line, "", false)) }

  method SplitCsvLine(line: string) returns (fields: seq<string>)
    ensures fields == SplitLine(line)
  {
    var out: seq<string>, cur, quoted, i := [], "", false, 0;
    while i < |line|
      invariant 0 <= i <= |line|
      invariant out + Split(line[i..], cur, quoted) == Split(line, "", false)
    {
      var ch := line[i];
      ghost var rest := line[i..];
      assert rest[1..] == line[i + 1..];
      if quoted {
        if ch == '"' && i + 1 < |line| && line[i + 1] == '"' {
          assert rest[2..] == line[i + 2..];
          cur := cur + "\"";
          i := i + 1;
        } else if ch == '"' {
          quoted := false;
        } else {
          cur := cur + [ch];
        }
      } else if ch == '"' && Trim(cur) == "" {
        quoted := true;
        cur := "";
      } else if ch == ',' {
        assert out + ([cur] + Split(rest[1..], "", false)) == (out + [cur]) + Split(rest[1..], "", false);
        out := out + [cur];
        cur := "";
      } else {
        cur := cur + [ch];
      }
      i := i + 1;
    }
    out := out + [cur];
    fields := [];
    for k := 0 to |out|
      invariant fields + TrimEach(out[k..]) == TrimEach(out)
    {
      assert out[k..][1..] == out[k + 1..];
      fields := fields + [Trim(out[k])];
    }
  }

  // ----- printing -----

  /** Inner quotes are doubled. */
  function Double(f: string): string {
    if f == "" then "" else (if f[0] == '"' then "\"\"" else [f[0]]) + Double(f[1..])
  }

  function Quote(f: string): string { "\"" + Double(f) + "\"" }

  function Join(printed: seq<string>): string {
    if printed == [] then "" else if |printed| == 1 then printed[0] else printed[0] + "," + Join(printed[1..])
  }

  /** The first character that is not white space is a quote. */
  predicate StartsQuoted(f: string) { f != "" && if IsSpace(f[0]) then StartsQuoted(f[1..]) else f[0] == '"' }

  /** A field that can stand unquoted. */
  predicate Plain(f: string) { ',' !in f && !StartsQuoted(f) }

  /** Every field is quoted, or left as it is where that is safe. */
  predicate Prints(fields: seq<string>, printed: seq<string>) {
    |printed| == |fields|
    && forall i :: 0 <= i < |fields| ==> printed[i] == Quote(fields[i]) || (Plain(fields[i]) && printed[i] == fields[i])
  }

  function QuoteAll(fields: seq<string>): seq<string> {
    if fields == [] then [] else [Quote(fields[0])] + QuoteAll(fields[1..])
  }

  /** Only fields with a comma or a leading quote are quoted. */
  function QuoteSome(fields: seq<string>): seq<string> {
    if fields == [] then []
    else [if Plain(fields[0]) then fields[0] else Quote(fields[0])] + QuoteSome(fields[1..])
  }

  // ----- trimming -----

  predicate Blank(s: string) { forall i :: 0 <= i < |s| ==> IsSpace(s[i]) }

  lemma {:induction false} TrimStartBlank(s: string)
    ensures TrimStart(s) == "" <==> Blank(s)
    ensures TrimStart(s) != "" ==> !IsSpace(TrimStart(s)[0])
    decreases |s|
  {
    if s != "" && IsSpace(s[0]) {
      TrimStartBlank(s[1..]);
      assert Blank(s) <==> Blank(s[1..]) by {
        assert forall i :: 0 < i < |s| ==> s[i] == s[1..][i - 1];
      }
    }
  }

  lemma {:induction false} TrimEndBlank(s: string)
    ensures TrimEnd(s) == "" <==> Blank(s)
  {
    if s != "" && IsSpace(s[|s| - 1]) {
      TrimEndBlank(s[..|s| - 1]);
      assert forall i :: 0 <= i < |s| - 1 ==> s[i] == s[..|s| - 1][i];
    }
  }

  lemma TrimBlank(s: string)
    ensures Trim(s) == "" <==> Blank(s)
  {
    TrimStartBlank(s);
    TrimEndBlank(TrimStart(s));
    if TrimStart(s) != "" {
      assert !Blank(TrimStart(s));
    }
  }

  // ----- one field -----

  /** What follows a printed field: the end of the line or a comma. */
  predicate Ends(tail: string) { tail == "" || tail[0] == ',' }

  lemma {:induction false} QuotedField(f: string, tail: string, cur: string)
    requires Ends(tail)
    ensures Split(Double(f) + "\"" + tail, cur, true) == Split(tail, cur + f, false)
    decreases |f|
  {
    var line := Double(f) + "\"" + tail;
    if f == "" {
      assert line == "\"" + tail && line[1..] == tail;
      assert cur + f == cur;
    } else {
      QuotedField(f[1..], tail, cur + [f[0]]);
      assert cur + [f[0]] + f[1..] == cur + f;
      var rest := Double(f[1..]) + "\"" + tail;
      if f[0] == '"' {
        assert line == "\"\"" + rest && line[2..] == rest;
      } else {
        assert line == [f[0]] + rest && line[1..] == rest;
      }
    }
  }

  lemma {:induction false} RawField(f: string, tail: string, cur: string)
    requires Ends(tail) && ',' !in f && (Blank(cur) ==> !StartsQuoted(f))
    ensures Split(f + tail, cur, false) == Split(tail, cur + f, false)
    decreases |f|
  {
    if f == "" {
      assert f + tail == tail && cur + f == cur;
    } else {
      TrimBlank(cur);
      assert (f + tail)[1..] == f[1..] + tail && cur + [f[0]] + f[1..] == cur + f;
      assert Blank(cur + [f[0]]) ==> Blank(cur) && IsSpace(f[0]) by {
        assert (cur + [f[0]])[|cur|] == f[0];
        assert forall i :: 0 <= i < |cur| ==> (cur + [f[0]])[i] == cur[i];
      }
      RawField(f[1..], tail, cur + [f[0]]);
    }
  }

  lemma PrintedField(f: string, printed: string, tail: string)
    requires Ends(tail) && (printed == Quote(f) || (Plain(f) && printed == f))
    ensures Split(printed + tail, "", false) == Split(tail, f, false)
  {
    if printed == Quote(f) {
      var line := printed + tail;
      TrimBlank("");
      assert line[1..] == Double(f) + "\"" + tail;
      QuotedField(f, tail, "");
      assert "" + f == f;
    } else {
      RawField(f, tail, "");
      assert "" + f == f;
    }
  }

  // ----- the round trip -----

  lemma {:induction false} SplitUndoesJoin(fields: seq<string>, printed: seq<string>)
    requires fields != [] && Prints(fields, printed)
    ensures Split(Join(printed), "", false) == fields
    decreases |fields|
  {
    if |fields| == 1 {
      PrintedField(fields[0], printed[0], "");
      assert printed[0] + "" == printed[0];
      assert fields == [fields[0]];
    } else {
      SplitUndoesJoin(fields[1..], printed[1..]);
      PrintedField(fields[0], printed[0], "," + Join(printed[1..]));
      assert Join(printed) == printed[0] + ("," + Join(printed[1..]));
      CommaEnds(Join(printed[1..]), fields[0]);
      assert fields == [fields[0]] + fields[1..];
    }
  }

  lemma CommaEnds(rest: string, field: string)
    ensures Split("," + rest, field, false) == [field] + Split(rest, "", false)
  {
    assert ("," + rest)[1..] == rest;
  }

  lemma {:induction false} QuoteAllPrints(fields: seq<string>)
    ensures Prints(fields, QuoteAll(fields)) && Prints(fields, QuoteSome(fields))
  {
    if fields != [] {
      QuoteAllPrints(fields[1..]);
    }
  }

  /** Both ways of printing any non-empty list of fields split back into the fields, trimmed. */
  lemma SplitUndoesPrint(fields: seq<string>)
    requires fields != []
    ensures SplitLine(Join(QuoteAll(fields))) == TrimEach(fields)
    ensures SplitLine(Join(QuoteSome(fields))) == TrimEach(fields)
  {
    QuoteAllPrints(fields);
    SplitUndoesJoin(fields, QuoteAll(fields));
    SplitUndoesJoin(fields, QuoteSome(fields));
  }

  lemma {:induction false} TrimEachAt(fields: seq<string>)
    ensures |TrimEach(fields)| == |fields| && forall i :: 0 <= i < |fields| ==> TrimEach(fields)[i] == Trim(fields[i])
  {
    if fields != [] {
      TrimEachAt(fields[1..]);
      assert forall i :: 0 < i < |fields| ==> fields[i] == fields[1..][i - 1];
    }
  }

  lemma TrimEachIff(fields: seq<string>)
    ensures TrimEach(fields) == fields <==> forall i :: 0 <= i < |fields| ==> Trim(fields[i]) == fields[i]
  {
    TrimEachAt(fields);
  }

  /** The list comes back unchanged exactly when it is not empty and its fields are trimmed. */
  lemma RoundTripIff(fields: seq<string>)
    ensures SplitLine(Join(QuoteAll(fields))) == fields
            <==> fields != [] && forall i :: 0 <= i < |fields| ==> Trim(fields[i]) == fields[i]
  {
    TrimEachIff(fields);
    if fields != [] {
      SplitUndoesPrint(fields);
    }
  }

  // ----- trimming -----

  lemma {:induction false} TrimStartIs(s: string) returns (before: string)
    ensures s == before + TrimStart(s) && Blank(before) && (TrimStart(s) != "" ==> !IsSpace(TrimStart(s)[0]))
  {
    if s != "" && IsSpace(s[0]) {
      var rest := TrimStartIs(s[1..]);
      before := [s[0]] + rest;
      assert s == [s[0]] + s[1..];
    } else {
      before := "";
    }
  }

  lemma {:induction false} TrimEndIs(s: string) returns (after: string)
    ensures s == TrimEnd(s) + after && Blank(after) && (TrimEnd(s) != "" ==> !IsSpace(TrimEnd(s)[|TrimEnd(s)| - 1]))
  {
    if s != "" && IsSpace(s[|s| - 1]) {
      var n := |s| - 1;
      var rest := TrimEndIs(s[..n]);
      after := rest + [s[n]];
      assert s == s[..n] + [s[n]];
      assert TrimEnd(s) + after == (TrimEnd(s) + rest) + [s[n]];
    } else {
      after := "";
    }
  }

  /** Trimming takes white space off both ends, and nothing else. */
  lemma TrimIs(s: string) returns (before: string, after: string)
    ensures s == before + Trim(s) + after && Blank(before) && Blank(after)
    ensures Trim(s) != "" ==> !IsSpace(Trim(s)[0]) && !IsSpace(Trim(s)[|Trim(s)| - 1])
  {
    before := TrimStartIs(s);
    after := TrimEndIs(TrimStart(s));
    assert s == before + (Trim(s) + after);
    if Trim(s) != "" {
      assert TrimStart(s)[0] == Trim(s)[0];
    }
  }

  /** A quote opens a quoted field after white space too, which is dropped. */
  lemma {:induction false} BlankBeforeQuote(blank: string, f: string, tail: string, cur: string)
    requires Ends(tail) && Blank(blank) && Blank(cur)
    ensures Split(blank + (Quote(f) + tail), cur, false) == Split(tail, f, false)
    decreases |blank|
  {
    if blank == "" {
      assert "" + (Quote(f) + tail) == Quote(f) + tail;
      QuoteOpens(f, tail, cur);
    } else {
      assert (blank + (Quote(f) + tail))[1..] == blank[1..] + (Quote(f) + tail);
      assert IsSpace(blank[0]) && blank[0] != '"' && blank[0] != ',';
      assert Blank(cur + [blank[0]]) by {
        assert forall i :: 0 <= i < |cur| ==> (cur + [blank[0]])[i] == cur[i];
      }
      assert forall i :: 0 <= i < |blank[1..]| ==> blank[1..][i] == blank[i + 1];
      BlankBeforeQuote(blank[1..], f, tail, cur + [blank[0]]);
    }
  }

  lemma QuoteOpens(f: string, tail: string, cur: string)
    requires Ends(tail) && Blank(cur)
    ensures Split(Quote(f) + tail, cur, false) == Split(tail, f, false)
  {
    TrimBlank(cur);
    assert (Quote(f) + tail)[1..] == Double(f) + "\"" + tail;
    QuotedField(f, tail, "");
    assert "" + f == f;
  }
}

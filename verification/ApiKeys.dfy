/** Reading the configured API key hashes (internal/pkg/apikey/apikey.go). */
module ApiKeys {
  import opened Outcomes
  import opened Strings

  // ---------------------------------------------------------------- Go's string functions

  /** unicode.IsSpace. */
  predicate IsSpace(c: char) {
    var n := c as int;
    9 <= n <= 13 || n == 0x20 || n == 0x85 || n == 0xA0 || n == 0x1680 || 0x2000 <= n <= 0x200A
    || n == 0x2028 || n == 0x2029 || n == 0x202F || n == 0x205F || n == 0x3000
  }

  function TrimLeft(s: string): string {
    if s != "" && IsSpace(s[0]) then TrimLeft(s[1..]) else s
  }

  function TrimRight(s: string): string {
    if s != "" && IsSpace(s[|s| - 1]) then TrimRight(s[..|s| - 1]) else s
  }

  function TrimSpace(s: string): string {
    TrimRight(TrimLeft(s))
  }

  /** strings.ToLower, as far as it decides whether a text is hexadecimal. */
  function Lower(s: string): string {
    seq(|s|, i requires 0 <= i < |s| => if 'A' <= s[i] <= 'Z' then s[i] + ' ' else s[i])
  }

  /** strings.Split at commas; at least one part. */
  function Split(s: string): (parts: seq<string>)
    ensures parts != []
  {
    if s == "" then [""]
    else
      var rest := Split(s[1..]);
      if s[0] == ',' then [""] + rest else [[s[0]] + rest[0]] + rest[1..]
  }

  predicate IsHash(s: string) {
    |s| == 64 && forall i :: 0 <= i < |s| ==> '0' <= s[i] <= '9' || 'a' <= s[i] <= 'f'
  }

  // ---------------------------------------------------------------- what an operator writes

  predicate NoColon(s: string) {
    Without(s, ':')
  }

  /** One entry as an operator writes it, blanks around its parts included. */
  datatype Entry = Entry(
    lead: string, service: string, beforeColon: string, afterColon: string, hash: string, trail: string)

  predicate Blank(s: string) {
    forall i :: 0 <= i < |s| ==> IsSpace(s[i])
  }

  /** A service name, a hash of 64 hexadecimal digits in either case, and blanks. */
  predicate WellFormed(e: Entry) {
    && e.service != "" && NoColon(e.service) && !IsSpace(e.service[0]) && !IsSpace(e.service[|e.service| - 1])
    && |e.hash| == 64
    && (forall i :: 0 <= i < |e.hash| ==>
          '0' <= e.hash[i] <= '9' || 'a' <= e.hash[i] <= 'f' || 'A' <= e.hash[i] <= 'F')
    && Blank(e.lead) && Blank(e.beforeColon) && Blank(e.afterColon) && Blank(e.trail)
  }

  /** The entry between its outer blanks. */
  function Core(e: Entry): string {
    (e.service + e.beforeColon) + ":" + (e.afterColon + e.hash)
  }

  function Text(e: Entry): string {
    e.lead + Core(e) + e.trail
  }

  /** Every entry is blank or well formed, and no hash is given to two services. */
  ghost predicate WellWritten(entries: seq<string>) {
    && (forall i :: 0 <= i < |entries| ==> Blank(entries[i]) || exists e :: WellFormed(e) && entries[i] == Text(e))
    && (forall e, g | WellFormed(e) && WellFormed(g) && Text(e) in entries && Text(g) in entries ::
          Lower(e.hash) == Lower(g.hash) ==> e.service == g.service)
  }

  /** An entry gives this hash, in lower case, to this service. */
  ghost predicate Names(entries: seq<string>, hash: string, service: string) {
    exists e :: WellFormed(e) && Text(e) in entries && hash == Lower(e.hash) && service == e.service
  }

  // ---------------------------------------------------------------- ParseHashes

  datatype KeyHash = KeyHash(service: string, hash: string)

  /** One entry: nothing if it is blank. */
  function ParseEntry(text: string): Result<Option<KeyHash>> {
    var entry := TrimSpace(text);
    if entry == "" then Ok(None)
    else match Cut(entry, ':')
      case None => Err(InvalidInput)
      case Some((before, after)) =>
        var service, hash := TrimSpace(before), Lower(TrimSpace(after));
        if service == "" || !IsHash(hash) then Err(InvalidInput)
        else Ok(Some(KeyHash(service, hash)))
  }

  /** Every entry is well formed and no hash is given to two services. */
  ghost predicate Acceptable(entries: seq<string>) {
    && (forall i :: 0 <= i < |entries| ==> ParseEntry(entries[i]).Ok?)
    && (forall i, j :: 0 <= i < j < |entries| ==> !Conflict(ParseEntry(entries[i]), ParseEntry(entries[j])))
  }

  predicate Conflict(a: Result<Option<KeyHash>>, b: Result<Option<KeyHash>>) {
    && a.Ok? && b.Ok? && a.value.Some? && b.value.Some?
    && a.value.value.hash == b.value.value.hash && a.value.value.service != b.value.value.service
  }

  /** m maps exactly the given hashes to their services. */
  ghost predicate Collects(m: map<string, string>, entries: seq<string>) {
    && (forall i :: 0 <= i < |entries| && ParseEntry(entries[i]).Ok? && ParseEntry(entries[i]).value.Some? ==>
          var e := ParseEntry(entries[i]).value.value; e.hash in m && m[e.hash] == e.service)
    && (forall h :: h in m ==> Given(entries, KeyHash(m[h], h)))
  }

  ghost predicate Given(entries: seq<string>, e: KeyHash) {
    exists i :: 0 <= i < |entries| && ParseEntry(entries[i]) == Ok(Some(e))
  }

  lemma OneMoreGiven(entries: seq<string>, i: nat)
    requires i < |entries|
    ensures forall e :: Given(entries[..i], e) ==> Given(entries[..i + 1], e)
    ensures ParseEntry(entries[i]).Ok? && ParseEntry(entries[i]).value.Some? ==>
              Given(entries[..i + 1], ParseEntry(entries[i]).value.value)
  {
    hide ParseEntry;
    var longer := entries[..i + 1];
    assert longer[i] == entries[i];
    forall e | Given(entries[..i], e) ensures Given(longer, e) {
      var k :| 0 <= k < i && ParseEntry(entries[..i][k]) == Ok(Some(e));
      assert longer[k] == entries[..i][k];
    }
  }

  method ParseHashes(s: string) returns (parsed: Result<map<string, string>>)
    ensures parsed.Ok? <==> WellWritten(Split(s))
    ensures parsed.Ok? ==>
              forall h, service :: Names(Split(s), h, service) <==> h in parsed.value && parsed.value[h] == service
    ensures parsed.Ok? <==> Acceptable(Split(s))
    ensures parsed.Ok? ==> Collects(parsed.value, Split(s))
    ensures parsed.Err? ==> parsed.code == InvalidInput
  {
    var entries := Split(s);
    var out: map<string, string> := map[];
    AcceptableIffWellWritten(entries);
    hide ParseEntry, Split, WellWritten, Names, Lower;
    assert Acceptable(entries[..0]);
    hide Acceptable;
    for i := 0 to |entries|
      invariant Acceptable(entries[..i])
      invariant Collects(out, entries[..i])
    {
      var entry := ParseEntry(entries[i]);
      OneMoreGiven(entries, i);
      Prefixes(entries, i);
      if entry.Err? {
        return Err(InvalidInput);
      }
      if entry.value.Some? {
        var e := entry.value.value;
        if e.hash in out && out[e.hash] != e.service {
          ConflictFound(entries, i, out);
          return Err(InvalidInput);
        }
        NoConflict(entries, i, out);
        out := out[e.hash := e.service];
      } else {
        NoConflict(entries, i, out);
      }
    }
    assert entries[..|entries|] == entries;
    CollectsWhatIsWritten(entries, out);
    parsed := Ok(out);
  }

  lemma Prefixes(entries: seq<string>, i: nat)
    requires i < |entries|
    ensures Acceptable(entries) ==> ParseEntry(entries[i]).Ok?
    ensures entries[..i + 1] == entries[..i] + [entries[i]]
  {
  }

  lemma ConflictFound(entries: seq<string>, i: nat, out: map<string, string>)
    requires i < |entries| && Collects(out, entries[..i])
    requires ParseEntry(entries[i]).Ok? && ParseEntry(entries[i]).value.Some?
    requires var e := ParseEntry(entries[i]).value.value; e.hash in out && out[e.hash] != e.service
    ensures !Acceptable(entries)
  {
    hide ParseEntry;
    var e := ParseEntry(entries[i]).value.value;
    var k :| 0 <= k < i && ParseEntry(entries[..i][k]) == Ok(Some(KeyHash(out[e.hash], e.hash)));
    assert entries[..i][k] == entries[k];
    assert Conflict(ParseEntry(entries[k]), ParseEntry(entries[i]));
  }

  lemma NoConflict(entries: seq<string>, i: nat, out: map<string, string>)
    requires i < |entries| && Collects(out, entries[..i]) && Acceptable(entries[..i])
    requires ParseEntry(entries[i]).Ok?
    requires var e := ParseEntry(entries[i]).value;
             e.Some? && e.value.hash in out ==> out[e.value.hash] == e.value.service
    ensures Acceptable(entries[..i + 1])
  {
    hide ParseEntry;
    var longer := entries[..i + 1];
    forall j, k | 0 <= j < k < |longer| ensures !Conflict(ParseEntry(longer[j]), ParseEntry(longer[k])) {
      assert longer[j] == entries[..i][j];
      if k < i {
        assert longer[k] == entries[..i][k];
      }
    }
    forall k | 0 <= k < |longer| ensures ParseEntry(longer[k]).Ok? {
      assert k < i ==> longer[k] == entries[..i][k];
    }
  }

  // ---------------------------------------------------------------- what parsing guarantees

  lemma {:induction false} TrimKeepsNoColon(s: string)
    requires NoColon(s)
    ensures NoColon(TrimLeft(s)) && NoColon(TrimRight(s))
  {
    if s != "" {
      TrimKeepsNoColon(s[1..]);
      TrimKeepsNoColon(s[..|s| - 1]);
    }
  }

  /** No service name that configuration yields contains a colon. */
  lemma ServicesHaveNoColon(s: string, m: map<string, string>, hash: string)
    requires Collects(m, Split(s)) && hash in m
    ensures m[hash] != "" && NoColon(m[hash])
  {
    var entries := Split(s);
    var i :| 0 <= i < |entries| && ParseEntry(entries[i]) == Ok(Some(KeyHash(m[hash], hash)));
    var entry := TrimSpace(entries[i]);
    CutStops(entry, ':');
    TrimKeepsNoColon(Cut(entry, ':').value.0);
    TrimKeepsNoColon(TrimLeft(Cut(entry, ':').value.0));
  }

  // ---------------------------------------------------------------- joining and parsing again

  /** An entry of a comma-separated list. */
  predicate Writable(e: Entry) {
    WellFormed(e) && Without(e.service, ',')
  }

  function Texts(es: seq<Entry>): seq<string> {
    seq(|es|, i requires 0 <= i < |es| => Text(es[i]))
  }

  function Join(parts: seq<string>): string {
    if parts == [] then ""
    else if |parts| == 1 then parts[0]
    else parts[0] + "," + Join(parts[1..])
  }

  lemma {:induction false} SplitFirst(first: string, rest: string)
    requires Without(first, ',')
    ensures Split(first + "," + rest) == [first] + Split(rest)
  {
    var s := first + "," + rest;
    if first == "" {
      assert s[1..] == rest;
    } else {
      SplitFirst(first[1..], rest);
      assert s[1..] == first[1..] + "," + rest;
      assert [first[0]] + first[1..] == first;
    }
  }

  lemma {:induction false} SplitOne(s: string)
    requires Without(s, ',')
    ensures Split(s) == [s]
  {
    if s != "" {
      SplitOne(s[1..]);
      assert [s[0]] + s[1..] == s;
    }
  }

  lemma {:induction false} SplitUndoesJoin(parts: seq<string>)
    requires parts != [] && forall i :: 0 <= i < |parts| ==> Without(parts[i], ',')
    ensures Split(Join(parts)) == parts
  {
    hide Without, Split;
    if |parts| == 1 {
      SplitOne(parts[0]);
    } else {
      SplitUndoesJoin(parts[1..]);
      SplitFirst(parts[0], Join(parts[1..]));
    }
  }

  lemma {:induction false} TrimRightBlank(core: string, b: string)
    requires core != "" && !IsSpace(core[|core| - 1]) && Blank(b)
    ensures TrimRight(core + b) == core
  {
    hide IsSpace;
    if b == "" {
      assert core + b == core;
    } else {
      TrimRightBlank(core, b[..|b| - 1]);
      assert (core + b)[..|core + b| - 1] == core + b[..|b| - 1];
    }
  }

  lemma {:induction false} TrimLeftBlank(a: string, core: string)
    requires core != "" && !IsSpace(core[0]) && Blank(a)
    ensures TrimLeft(a + core) == core
  {
    hide IsSpace;
    if a == "" {
      assert a + core == core;
    } else {
      TrimLeftBlank(a[1..], core);
      assert (a + core)[1..] == a[1..] + core;
    }
  }

  lemma TrimBlanks(a: string, core: string, b: string)
    requires core != "" && !IsSpace(core[0]) && !IsSpace(core[|core| - 1]) && Blank(a) && Blank(b)
    ensures TrimSpace(a + core + b) == core
  {
    hide IsSpace, TrimLeft, TrimRight, Blank;
    assert a + core + b == a + (core + b);
    TrimLeftBlank(a, core + b);
    TrimRightBlank(core, b);
  }

  lemma HashCharacters(e: Entry)
    requires WellFormed(e)
    ensures |e.hash| == 64 && IsHash(Lower(e.hash))
    ensures forall i :: 0 <= i < |e.hash| ==> !IsSpace(e.hash[i]) && e.hash[i] != ','
  {
  }

  lemma HashDigits(hash: string)
    requires IsHash(Lower(hash))
    ensures |hash| == 64
    ensures forall i :: 0 <= i < |hash| ==> '0' <= hash[i] <= '9' || 'a' <= hash[i] <= 'f' || 'A' <= hash[i] <= 'F'
  {
    forall i | 0 <= i < |hash| ensures '0' <= hash[i] <= '9' || 'a' <= hash[i] <= 'f' || 'A' <= hash[i] <= 'F' {
      assert var c := Lower(hash)[i]; '0' <= c <= '9' || 'a' <= c <= 'f';
    }
  }

  lemma BlankHasNoMarks(s: string)
    requires Blank(s)
    ensures Without(s, ',') && Without(s, ':')
  {
    forall i | 0 <= i < |s| ensures s[i] != ',' && s[i] != ':' {
      assert IsSpace(s[i]);
    }
  }

  lemma EntryRoundTrip(e: Entry)
    requires WellFormed(e)
    ensures ParseEntry(Text(e)) == Ok(Some(KeyHash(e.service, Lower(e.hash))))
    ensures Without(e.service, ',') ==> Without(Text(e), ',')
  {
    HashCharacters(e);
    BlankHasNoMarks(e.lead);
    BlankHasNoMarks(e.beforeColon);
    BlankHasNoMarks(e.afterColon);
    BlankHasNoMarks(e.trail);
    assert ":" == [':'];
    assert "" + e.service + e.beforeColon == e.service + e.beforeColon
        && e.afterColon + e.hash + "" == e.afterColon + e.hash;
    hide TrimSpace, Cut, Lower, IsHash, IsSpace;
    TrimBlanks(e.lead, Core(e), e.trail);
    TrimBlanks("", e.service, e.beforeColon);
    TrimBlanks(e.afterColon, e.hash, "");
    CutAtFirst(e.service + e.beforeColon, ':', e.afterColon + e.hash);
  }

  lemma {:induction false} TrimLeftLeaves(s: string) returns (lead: string)
    ensures s == lead + TrimLeft(s) && Blank(lead)
    ensures TrimLeft(s) == "" || !IsSpace(TrimLeft(s)[0])
  {
    hide IsSpace;
    lead := "";
    if s != "" && IsSpace(s[0]) {
      var rest := TrimLeftLeaves(s[1..]);
      lead := [s[0]] + rest;
      assert s == [s[0]] + s[1..];
    }
  }

  lemma {:induction false} TrimRightLeaves(s: string) returns (trail: string)
    ensures s == TrimRight(s) + trail && Blank(trail)
    ensures TrimRight(s) == "" || !IsSpace(TrimRight(s)[|TrimRight(s)| - 1])
  {
    hide IsSpace;
    trail := "";
    if s != "" && IsSpace(s[|s| - 1]) {
      var rest := TrimRightLeaves(s[..|s| - 1]);
      trail := rest + [s[|s| - 1]];
      assert s == s[..|s| - 1] + [s[|s| - 1]];
    }
  }

  /** What trimming takes away is blank, and it leaves no blank at either end. */
  lemma TrimLeaves(s: string) returns (lead: string, trail: string)
    ensures s == lead + TrimSpace(s) + trail && Blank(lead) && Blank(trail)
    ensures TrimSpace(s) == "" || (!IsSpace(TrimSpace(s)[0]) && !IsSpace(TrimSpace(s)[|TrimSpace(s)| - 1]))
  {
    hide IsSpace, TrimLeft, TrimRight, Blank;
    lead := TrimLeftLeaves(s);
    trail := TrimRightLeaves(TrimLeft(s));
    assert lead + TrimSpace(s) + trail == lead + (TrimSpace(s) + trail);
    assert TrimSpace(s) != "" ==> TrimSpace(s)[0] == TrimLeft(s)[0];
  }

  /** Every text that parses to an entry is one an operator can write. */
  lemma ParsedIsWritten(text: string) returns (e: Entry)
    requires ParseEntry(text).Ok? && ParseEntry(text).value.Some?
    ensures WellFormed(e) && text == Text(e)
    ensures ParseEntry(text).value.value == KeyHash(e.service, Lower(e.hash))
  {
    var core := TrimSpace(text);
    CutStops(core, ':');
    var before, after := Cut(core, ':').value.0, Cut(core, ':').value.1;
    HashDigits(TrimSpace(after));
    hide TrimSpace, Lower, IsHash, IsSpace, Blank, Without;
    var lead, trail := TrimLeaves(text);
    var a, beforeColon := TrimLeaves(before);
    var afterColon, b := TrimLeaves(after);
    EndsAreTrimmed(core, before, after, a, TrimSpace(before), beforeColon, afterColon, TrimSpace(after), b);
    e := Entry(lead, TrimSpace(before), beforeColon, afterColon, TrimSpace(after), trail);
    WithoutInside(a, TrimSpace(before), beforeColon, ':');
    assert ":" == [':'];
    assert Core(e) == core;
  }

  lemma OuterCharacters(a: string, core: string, b: string)
    ensures a != "" ==> (a + core + b)[0] == a[0]
    ensures b != "" ==> (a + core + b)[|a + core + b| - 1] == b[|b| - 1]
  {
  }

  lemma WithoutInside(a: string, s: string, b: string, c: char)
    requires Without(a + s + b, c)
    ensures Without(s, c)
  {
    assert forall i :: 0 <= i < |s| ==> s[i] == (a + s + b)[|a| + i];
  }

  /** A trimmed text's parts have no blanks at its ends. */
  lemma EndsAreTrimmed(core: string, before: string, after: string, a: string, service: string, beforeColon: string,
                       afterColon: string, hash: string, b: string)
    requires core == before + [':'] + after && before == a + service + beforeColon && after == afterColon + hash + b
    requires service != "" && hash != "" && Blank(a) && Blank(b)
    requires !IsSpace(core[0]) && !IsSpace(core[|core| - 1])
    ensures a == "" && b == ""
    ensures core == (service + beforeColon) + [':'] + (afterColon + hash)
  {
    hide IsSpace;
    OuterCharacters(a, service + beforeColon + [':'] + afterColon + hash, b);
    assert core == a + (service + beforeColon + [':'] + afterColon + hash) + b;
    assert before == service + beforeColon && after == afterColon + hash;
  }

  /** Blank texts, and only they, parse to nothing. */
  lemma BlankParsesToNothing(text: string)
    ensures ParseEntry(text) == Ok(None) <==> Blank(text)
  {
    var lead, trail := TrimLeaves(text);
    hide IsSpace;
    assert TrimSpace(text) == "" || TrimSpace(text)[0] == text[|lead|];
  }

  lemma EntryForms(text: string)
    ensures ParseEntry(text).Ok? <==> Blank(text) || exists e :: WellFormed(e) && text == Text(e)
  {
    BlankParsesToNothing(text);
    if ParseEntry(text).Ok? && ParseEntry(text).value.Some? {
      var e := ParsedIsWritten(text);
    }
    if e :| WellFormed(e) && text == Text(e) {
      EntryRoundTrip(e);
    }
  }

  /** Acceptance in the operator's terms. */
  lemma AcceptableIffWellWritten(entries: seq<string>)
    ensures Acceptable(entries) <==> WellWritten(entries)
  {
    hide ParseEntry, WellFormed, Text, Lower, Blank;
    forall i | 0 <= i < |entries|
      ensures ParseEntry(entries[i]).Ok?
              <==> Blank(entries[i]) || exists e :: WellFormed(e) && entries[i] == Text(e)
    {
      EntryForms(entries[i]);
    }
    if Acceptable(entries) {
      forall e, g | WellFormed(e) && WellFormed(g) && Text(e) in entries && Text(g) in entries
                    && Lower(e.hash) == Lower(g.hash)
        ensures e.service == g.service
      {
        var i :| 0 <= i < |entries| && entries[i] == Text(e);
        var j :| 0 <= j < |entries| && entries[j] == Text(g);
        EntryRoundTrip(e);
        EntryRoundTrip(g);
        if i < j {
          assert !Conflict(ParseEntry(entries[i]), ParseEntry(entries[j]));
        } else if j < i {
          assert !Conflict(ParseEntry(entries[j]), ParseEntry(entries[i]));
        }
      }
    }
    if WellWritten(entries) {
      forall i, j | 0 <= i < j < |entries| ensures !Conflict(ParseEntry(entries[i]), ParseEntry(entries[j])) {
        if Conflict(ParseEntry(entries[i]), ParseEntry(entries[j])) {
          var e := ParsedIsWritten(entries[i]);
          var g := ParsedIsWritten(entries[j]);
        }
      }
    }
  }

  lemma CollectsWhatIsWritten(entries: seq<string>, m: map<string, string>)
    requires Collects(m, entries)
    ensures forall h, service :: Names(entries, h, service) <==> h in m && m[h] == service
  {
    hide ParseEntry, WellFormed, Text, Lower;
    forall h | h in m ensures Names(entries, h, m[h]) {
      var i :| 0 <= i < |entries| && ParseEntry(entries[i]) == Ok(Some(KeyHash(m[h], h)));
      var e := ParsedIsWritten(entries[i]);
    }
    forall e | WellFormed(e) && Text(e) in entries ensures Lower(e.hash) in m && m[Lower(e.hash)] == e.service {
      var i :| 0 <= i < |entries| && entries[i] == Text(e);
      EntryRoundTrip(e);
      assert ParseEntry(entries[i]).Ok?;
    }
  }

  /** The list gives no hash to two services. */
  predicate ConflictFree(es: seq<Entry>) {
    forall i, j :: 0 <= i < j < |es| && Lower(es[i].hash) == Lower(es[j].hash) ==> es[i].service == es[j].service
  }

  /** m maps each hash of the list, in lower case, to its service, and nothing else. */
  ghost predicate Holds(m: map<string, string>, es: seq<Entry>) {
    && (forall i :: 0 <= i < |es| ==> Lower(es[i].hash) in m && m[Lower(es[i].hash)] == es[i].service)
    && (forall h :: h in m ==> exists i :: 0 <= i < |es| && h == Lower(es[i].hash) && m[h] == es[i].service)
  }

  /** texts are the list's entries. */
  ghost predicate Writes(texts: seq<string>, es: seq<Entry>) {
    |texts| == |es| && forall i :: 0 <= i < |es| ==>
        ParseEntry(texts[i]) == Ok(Some(KeyHash(es[i].service, Lower(es[i].hash))))
  }

  lemma AcceptsWritten(texts: seq<string>, es: seq<Entry>)
    requires Writes(texts, es)
    ensures Acceptable(texts) <==> ConflictFree(es)
  {
    hide ParseEntry, Lower;
    if Acceptable(texts) {
      forall i, j | 0 <= i < j < |es| && Lower(es[i].hash) == Lower(es[j].hash) ensures es[i].service == es[j].service {
        assert !Conflict(ParseEntry(texts[i]), ParseEntry(texts[j]));
      }
    }
  }

  lemma CollectsWritten(texts: seq<string>, es: seq<Entry>, m: map<string, string>)
    requires Writes(texts, es) && Collects(m, texts)
    ensures Holds(m, es)
  {
    hide ParseEntry, Lower;
    forall h | h in m ensures exists i :: 0 <= i < |es| && h == Lower(es[i].hash) && m[h] == es[i].service {
      var i :| 0 <= i < |texts| && ParseEntry(texts[i]) == Ok(Some(KeyHash(m[h], h)));
    }
    forall i | 0 <= i < |es| ensures Lower(es[i].hash) in m && m[Lower(es[i].hash)] == es[i].service {
      assert ParseEntry(texts[i]).Ok?;
    }
  }

  /** Parsing undoes joining: a joined list is accepted exactly when it is free of conflicts, and then
      the result holds precisely its entries. */
  lemma ParseUndoesJoin(es: seq<Entry>, m: map<string, string>)
    requires forall i :: 0 <= i < |es| ==> Writable(es[i])
    ensures Acceptable(Split(Join(Texts(es)))) <==> ConflictFree(es)
    ensures Collects(m, Split(Join(Texts(es)))) ==> Holds(m, es)
  {
    var texts := Texts(es);
    if es == [] {
      assert Split(Join(texts)) == [""] && ParseEntry("") == Ok(None);
      return;
    }
    forall i | 0 <= i < |es|
      ensures ParseEntry(texts[i]) == Ok(Some(KeyHash(es[i].service, Lower(es[i].hash)))) && Without(texts[i], ',')
    {
      EntryRoundTrip(es[i]);
    }
    SplitUndoesJoin(texts);
    hide ParseEntry, Split, Join, Lower, Writable;
    AcceptsWritten(texts, es);
    if Collects(m, texts) {
      CollectsWritten(texts, es, m);
    }
  }
}

/**
 * Session bootstrap and the `Cookie` header the client sends when it opens the
 * socket: the session id from the server's cookie jar, four fixed editor
 * preferences, entries with empty values dropped, `k=v` joined by `; `.
 */
module Session {
  import opened Wrappers

  type Entry = (string, string)

  /** The five cookies of a session, in the order they are declared and rendered. */
  datatype SessionCookies = SessionCookies(
    connectSid: string,
    loginstate: string,
    indentType: string,
    spaceUnits: string,
    keymap: string)

  /** The cookie names, in the order the interface declares them. */
  const CookieNames: seq<string> := ["connect.sid", "loginstate", "indent_type", "space_units", "keymap"]

  /** The cookies as `Object.entries` lists them. */
  function EntriesOf(c: SessionCookies): (r: seq<Entry>)
    ensures |r| == |CookieNames| && forall i :: 0 <= i < |r| ==> r[i].0 == CookieNames[i]
    ensures r[0].1 == c.connectSid
    ensures [r[1].1, r[2].1, r[3].1, r[4].1] == [c.loginstate, c.indentType, c.spaceUnits, c.keymap]
  {
    [ ("connect.sid", c.connectSid),
      ("loginstate", c.loginstate),
      ("indent_type", c.indentType),
      ("space_units", c.spaceUnits),
      ("keymap", c.keymap) ]
  }

  /** The value of the first jar entry named `key`, as `.find(...)?.value` gives it. */
  function FirstValue(jar: seq<Entry>, key: string): (r: Option<string>)
    ensures r.None? <==> forall i :: 0 <= i < |jar| ==> jar[i].0 != key
    ensures r.Some? ==> exists i :: 0 <= i < |jar| && jar[i] == (key, r.value)
                                    && forall j :: 0 <= j < i ==> jar[j].0 != key
  {
    if jar == [] then None
    else if jar[0].0 == key then Some(jar[0].1)
    else
      var r := FirstValue(jar[1..], key);
      FirstValueShift(jar, key, r);
      r
  }

  /** What holds of the jar's tail holds of the jar when its head has another key. */
  lemma FirstValueShift(jar: seq<Entry>, key: string, r: Option<string>)
    requires jar != [] && jar[0].0 != key
    requires r.None? <==> forall i :: 0 <= i < |jar[1..]| ==> jar[1..][i].0 != key
    requires r.Some? ==> exists i :: 0 <= i < |jar[1..]| && jar[1..][i] == (key, r.value)
                                     && forall j :: 0 <= j < i ==> jar[1..][j].0 != key
    ensures r.None? <==> forall i :: 0 <= i < |jar| ==> jar[i].0 != key
    ensures r.Some? ==> exists i :: 0 <= i < |jar| && jar[i] == (key, r.value)
                                    && forall j :: 0 <= j < i ==> jar[j].0 != key
  {
  }

  /** The session built from the jar: a missing `connect.sid` becomes the empty string. */
  function SessionFromJar(jar: seq<Entry>): (c: SessionCookies)
    ensures c.loginstate == "true" && c.indentType == "space"
    ensures c.spaceUnits == "4" && c.keymap == "vim"
    ensures (forall i :: 0 <= i < |jar| ==> jar[i].0 != "connect.sid") ==> c.connectSid == ""
    ensures c.connectSid != "" ==> exists i :: 0 <= i < |jar| && jar[i] == ("connect.sid", c.connectSid)
    ensures forall i :: (&& 0 <= i < |jar| && jar[i].0 == "connect.sid"
                         && (forall j :: 0 <= j < i ==> jar[j].0 != "connect.sid"))
                        ==> c.connectSid == jar[i].1
  {
    var sid := FirstValue(jar, "connect.sid");
    SessionCookies(if sid.Some? then sid.value else "", "true", "space", "4", "vim")
  }

  /** The answer to the bootstrap request: its status and the cookies it set. */
  datatype Response = Response(ok: bool, status: int, statusText: string, jar: seq<Entry>)

  datatype AuthError = AuthError(status: int, statusText: string)

  /** A failed request fails the call; a successful one yields the session. */
  function AcquireSession(response: Response): (r: Result<SessionCookies, AuthError>)
    ensures r.Failure? <==> !response.ok
    ensures r.Failure? ==> r.error == AuthError(response.status, response.statusText)
    ensures r.Success? ==> r.value == SessionFromJar(response.jar)
  {
    if !response.ok then Failure(AuthError(response.status, response.statusText))
    else Success(SessionFromJar(response.jar))
  }

  /** Cookies given by the caller are used as they are; otherwise a session is fetched. */
  function ResolveCookies(given: Option<SessionCookies>, response: Response): (r: Result<SessionCookies, AuthError>)
    ensures given.Some? ==> r == Success(given.value)
    ensures given.None? ==> (r.Failure? <==> !response.ok)
    ensures given.None? ==> r == AcquireSession(response)
  {
    if given.Some? then Success(given.value) else AcquireSession(response)
  }

  /** Entries whose value is truthy, in order. */
  function Kept(entries: seq<Entry>): (r: seq<Entry>)
    ensures |r| <= |entries|
    ensures forall i :: 0 <= i < |r| ==> r[i].1 != ""
  {
    if entries == [] then []
    else (if entries[0].1 != "" then [entries[0]] else []) + Kept(entries[1..])
  }

  /** `Kept` keeps exactly the entries whose value is non-empty. */
  lemma {:induction false} KeptMembers(entries: seq<Entry>)
    ensures forall e :: e in Kept(entries) <==> e in entries && e.1 != ""
    decreases |entries|
  {
    if entries != [] {
      KeptMembers(entries[1..]);
      assert entries == [entries[0]] + entries[1..];
    }
  }

  function Render(e: Entry): string
  {
    e.0 + "=" + e.1
  }

  function RenderAll(entries: seq<Entry>): (r: seq<string>)
    ensures |r| == |entries|
    ensures forall i :: 0 <= i < |r| ==> r[i] == Render(entries[i])
  {
    if entries == [] then [] else [Render(entries[0])] + RenderAll(entries[1..])
  }

  function JoinWith(parts: seq<string>, sep: string): string
  {
    if parts == [] then ""
    else if |parts| == 1 then parts[0]
    else parts[0] + sep + JoinWith(parts[1..], sep)
  }

  const Separator: string := "; "

  /** A join of parts whose first part is non-empty is non-empty. */
  lemma JoinWithNonEmpty(parts: seq<string>, sep: string)
    ensures parts != [] && parts[0] != "" ==> JoinWith(parts, sep) != ""
  {
    if parts != [] && |parts| > 1 {
      assert JoinWith(parts, sep)[..|parts[0]|] == parts[0];
    }
  }

  /** The `Cookie` header value: empty exactly when every cookie value is. */
  function CookieHeader(entries: seq<Entry>): (h: string)
    ensures h == "" <==> forall i :: 0 <= i < |entries| ==> entries[i].1 == ""
  {
    var parts := RenderAll(Kept(entries));
    KeptMembers(entries);
    JoinWithNonEmpty(parts, Separator);
    assert parts != [] ==> parts[0] != "" by {
      if parts != [] { assert parts[0] == Render(Kept(entries)[0]); }
    }
    assert (Kept(entries) == []) <==> forall i :: 0 <= i < |entries| ==> entries[i].1 == "" by {
      if Kept(entries) != [] { assert Kept(entries)[0] in Kept(entries); }
      forall i | 0 <= i < |entries| && entries[i].1 != "" ensures Kept(entries) != [] {
        assert entries[i] in entries;
      }
    }
    JoinWith(parts, Separator)
  }

  // ---- Reading the header back ----

  /** No `; ` occurs inside `s`. */
  predicate NoSeparator(s: string)
  {
    forall k :: 0 <= k < |s| - 1 ==> !(s[k] == ';' && s[k + 1] == ' ')
  }

  /** The first index at or after `i` where `; ` starts, or `|s|`. */
  function FindSeparator(s: string, i: nat): (j: nat)
    requires i <= |s|
    ensures i <= j <= |s|
    decreases |s| - i
  {
    if i + 1 >= |s| then |s|
    else if s[i] == ';' && s[i + 1] == ' ' then i
    else FindSeparator(s, i + 1)
  }

  function SplitOnSeparator(s: string): (parts: seq<string>)
    ensures |parts| >= 1
    decreases |s|
  {
    var j := FindSeparator(s, 0);
    if j + 2 <= |s| then [s[..j]] + SplitOnSeparator(s[j + 2..]) else [s]
  }

  /** The first index of `=` in `s`, or `|s|`. */
  function FindEquals(s: string): (j: nat)
    ensures j <= |s|
    ensures forall k :: 0 <= k < j ==> s[k] != '='
    ensures j < |s| ==> s[j] == '='
  {
    if s == [] then 0
    else if s[0] == '=' then 0
    else 1 + FindEquals(s[1..])
  }

  function SplitEntry(piece: string): Entry
  {
    var j := FindEquals(piece);
    if j < |piece| then (piece[..j], piece[j + 1..]) else (piece, "")
  }

  function SplitEntries(pieces: seq<string>): (r: seq<Entry>)
    ensures |r| == |pieces|
  {
    if pieces == [] then [] else [SplitEntry(pieces[0])] + SplitEntries(pieces[1..])
  }

  /** How a server reads a `Cookie` header: pairs separated by `; `, split at the first `=`. */
  function ParseCookieHeader(h: string): seq<Entry>
  {
    if h == "" then [] else SplitEntries(SplitOnSeparator(h))
  }

  /** An entry the header can carry unambiguously. */
  predicate Unambiguous(e: Entry)
  {
    (forall k :: 0 <= k < |e.0| ==> e.0[k] != '=') && NoSeparator(e.0) && NoSeparator(e.1)
  }

  lemma {:induction false} FindSeparatorSkips(s: string, i: nat, j: nat)
    requires i <= j <= |s|
    requires forall k :: i <= k < j && k + 1 < |s| ==> !(s[k] == ';' && s[k + 1] == ' ')
    requires j + 2 <= |s| ==> s[j] == ';' && s[j + 1] == ' '
    requires j + 2 > |s| ==> j == |s|
    ensures FindSeparator(s, i) == j
    decreases j - i
  {
    if i < j && i + 1 < |s| {
      FindSeparatorSkips(s, i + 1, j);
    }
  }

  lemma RenderNoSeparator(e: Entry)
    requires NoSeparator(e.0) && NoSeparator(e.1)
    ensures NoSeparator(Render(e))
  {
  }

  lemma SplitEntryRender(e: Entry)
    requires forall k :: 0 <= k < |e.0| ==> e.0[k] != '='
    ensures SplitEntry(Render(e)) == e
  {
    var r := Render(e);
    var j := FindEquals(r);
    assert r[|e.0|] == '=';
    assert forall k :: 0 <= k < |e.0| ==> r[k] == e.0[k];
    assert j == |e.0|;
    assert r[..j] == e.0;
    assert r[j + 1..] == e.1;
  }

  /** Splitting a joined sequence of separator-free, non-empty parts gives the parts back. */
  lemma {:induction false} SplitJoin(parts: seq<string>)
    requires |parts| >= 1
    requires forall i :: 0 <= i < |parts| ==> NoSeparator(parts[i]) && parts[i] != ""
    ensures SplitOnSeparator(JoinWith(parts, Separator)) == parts
    decreases |parts|
  {
    var s := JoinWith(parts, Separator);
    var p := parts[0];
    if |parts| == 1 {
      FindSeparatorSkips(s, 0, |s|);
    } else {
      var rest := JoinWith(parts[1..], Separator);
      assert s == p + Separator + rest;
      assert s[|p|] == ';' && s[|p| + 1] == ' ';
      forall k | 0 <= k < |p| && k + 1 < |s| ensures !(s[k] == ';' && s[k + 1] == ' ') {
        if k + 1 < |p| {
          assert s[k] == p[k] && s[k + 1] == p[k + 1];
        } else {
          assert s[k + 1] == ';';
        }
      }
      FindSeparatorSkips(s, 0, |p|);
      assert s[..|p|] == p;
      assert s[|p| + 2..] == rest;
      SplitJoin(parts[1..]);
      assert SplitOnSeparator(s) == [p] + parts[1..];
    }
  }

  lemma {:induction false} SplitEntriesRenderAll(entries: seq<Entry>)
    requires forall i :: 0 <= i < |entries| ==> forall k :: 0 <= k < |entries[i].0| ==> entries[i].0[k] != '='
    ensures SplitEntries(RenderAll(entries)) == entries
    decreases |entries|
  {
    if entries != [] {
      SplitEntryRender(entries[0]);
      assert RenderAll(entries)[1..] == RenderAll(entries[1..]);
      SplitEntriesRenderAll(entries[1..]);
    }
  }

  lemma {:induction false} KeptSubsequence(entries: seq<Entry>)
    ensures forall i :: 0 <= i < |Kept(entries)| ==> Kept(entries)[i] in entries
    decreases |entries|
  {
    if entries != [] {
      KeptSubsequence(entries[1..]);
      forall i | 0 <= i < |Kept(entries)| ensures Kept(entries)[i] in entries {
        var head := if entries[0].1 != "" then [entries[0]] else [];
        if i >= |head| {
          assert Kept(entries)[i] == Kept(entries[1..])[i - |head|];
          assert Kept(entries)[i] in entries[1..];
        }
      }
    }
  }

  /**
   * The header is unambiguous: reading it back gives exactly the non-empty
   * entries, in field order, provided no key holds `=` and nothing holds `; `.
   */
  lemma CookieHeaderRoundTrip(entries: seq<Entry>)
    requires forall i :: 0 <= i < |entries| ==> Unambiguous(entries[i])
    ensures ParseCookieHeader(CookieHeader(entries)) == Kept(entries)
  {
    var kept := Kept(entries);
    KeptSubsequence(entries);
    var parts := RenderAll(kept);
    forall i | 0 <= i < |parts| ensures NoSeparator(parts[i]) && parts[i] != "" {
      assert kept[i] in entries;
      RenderNoSeparator(kept[i]);
    }
    SplitEntriesRenderAll(kept);
    if kept == [] {
      assert CookieHeader(entries) == "";
    } else {
      SplitJoin(parts);
      assert CookieHeader(entries) != "" by {
        assert |parts| >= 1 && parts[0] != "";
        if |parts| == 1 {
        } else {
          assert |JoinWith(parts, Separator)| >= |parts[0]|;
        }
      }
    }
  }

  /** The four preference entries every fetched session carries. */
  const PreferenceEntries: seq<Entry> :=
    [("loginstate", "true"), ("indent_type", "space"), ("space_units", "4"), ("keymap", "vim")]

  /** The four preference cookies as they appear in every header. */
  const Preferences: string :=
    "loginstate=true" + "; " + "indent_type=space" + "; " + "space_units=4" + "; " + "keymap=vim"

  lemma KeptCons(e: Entry, rest: seq<Entry>)
    ensures Kept([e] + rest) == (if e.1 != "" then [e] else []) + Kept(rest)
  {
    assert ([e] + rest)[1..] == rest;
  }

  lemma {:induction false} KeptAllNonEmpty(entries: seq<Entry>)
    requires forall i :: 0 <= i < |entries| ==> entries[i].1 != ""
    ensures Kept(entries) == entries
    decreases |entries|
  {
    if entries != [] {
      KeptAllNonEmpty(entries[1..]);
      KeptCons(entries[0], entries[1..]);
      assert [entries[0]] + entries[1..] == entries;
    }
  }

  lemma PreferencesRendered()
    ensures RenderAll(Kept(PreferenceEntries))
            == ["loginstate=true", "indent_type=space", "space_units=4", "keymap=vim"]
  {
    var prefs := PreferenceEntries;
    KeptAllNonEmpty(prefs);
    forall i | 0 <= i < 4
      ensures RenderAll(prefs)[i] == ["loginstate=true", "indent_type=space", "space_units=4", "keymap=vim"][i]
    {
      assert RenderAll(prefs)[i] == prefs[i].0 + "=" + prefs[i].1;
    }
  }

  lemma PreferencesJoined()
    ensures JoinWith(["loginstate=true", "indent_type=space", "space_units=4", "keymap=vim"], Separator)
            == Preferences
  {
  }

  /**
   * The header of a fetched session: the preferences, preceded by the
   * session id when the server set one.
   */
  lemma SessionHeader(jar: seq<Entry>)
    ensures var c := SessionFromJar(jar);
            CookieHeader(EntriesOf(c))
            == if c.connectSid == "" then Preferences else "connect.sid=" + c.connectSid + "; " + Preferences
  {
    var c := SessionFromJar(jar);
    var entries := EntriesOf(c);
    PreferencesRendered();
    PreferencesJoined();
    var rendered := RenderAll(Kept(PreferenceEntries));
    assert entries == [entries[0]] + PreferenceEntries;
    KeptCons(entries[0], PreferenceEntries);
    if c.connectSid != "" {
      var kept := Kept(entries);
      assert kept == [entries[0]] + Kept(PreferenceEntries);
      assert kept[1..] == Kept(PreferenceEntries);
      assert Render(entries[0]) == "connect.sid=" + c.connectSid;
      assert RenderAll(kept) == ["connect.sid=" + c.connectSid] + rendered;
      assert (["connect.sid=" + c.connectSid] + rendered)[1..] == rendered;
    } else {
      assert Kept(entries) == Kept(PreferenceEntries);
    }
  }

  /** Without caller cookies, a successful bootstrap yields the fetched session's header. */
  lemma FetchedSessionHeader(response: Response)
    requires response.ok
    ensures var c := SessionFromJar(response.jar);
            && ResolveCookies(None, response) == Success(c)
            && CookieHeader(EntriesOf(ResolveCookies(None, response).value))
               == if c.connectSid == "" then Preferences else "connect.sid=" + c.connectSid + "; " + Preferences
  {
    SessionHeader(response.jar);
  }

  /** The socket address: Engine.IO protocol version 3 over the websocket transport. */
  function SocketUrl(server: string, noteId: string): (url: string)
    ensures "wss://" + server + "/socket.io/?noteId=" + noteId <= url
    ensures |url| >= 26 && url[|url| - 26..] == "&EIO=3&transport=websocket"
  {
    "wss://" + server + "/socket.io/?noteId=" + noteId + "&EIO=3&transport=websocket"
  }
}

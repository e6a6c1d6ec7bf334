/** The side menu: page selection and the logout item with its default session cleanup. */
module Sidebar {
  import opened Wrappers
  import Text
  import Storage
  import App

  const MainItemIds: seq<string> := ["dashboard", "services", "delivery", "providers", "support"]
  const LogoutId: string := "logout"
  const LogoutTarget: string := "/"

  /** `.replace(/^ +/, "")`: drops leading space characters (only U+0020). */
  function StripLeadingSpaces(c: string): (r: string)
    ensures |r| <= |c| && r == c[|c| - |r|..]
    ensures forall i :: 0 <= i < |c| - |r| ==> c[i] == ' '
    ensures r == [] || r[0] != ' '
  {
    if c != [] && c[0] == ' ' then StripLeadingSpaces(c[1..]) else c
  }

  /** The characters `.` in a regular expression does not match. */
  predicate IsLineTerminator(ch: char) {
    ch == '\n' || ch == '\r' || ch == '\U{2028}' || ch == '\U{2029}'
  }

  predicate NoLineTerminator(s: string) {
    forall i :: 0 <= i < |s| ==> !IsLineTerminator(s[i])
  }

  /** Length of the longest prefix without a line terminator: what `.*` matches. */
  function LineLength(s: string): (n: nat)
    ensures n <= |s| && NoLineTerminator(s[..n])
    ensures n < |s| ==> IsLineTerminator(s[n])
  {
    if s == [] || IsLineTerminator(s[0]) then 0
    else
      var n := 1 + LineLength(s[1..]);
      assert forall i :: 1 <= i < n ==> s[..n][i] == s[1..][..n - 1][i - 1];
      n
  }

  /** A cookie's name part: the text before its first '=' (all of it when there is none). */
  function CookieName(c: string): (name: string)
    ensures '=' !in name
  {
    if '=' in c then c[..Text.IndexOf(c, '=')] else c
  }

  function ExpirySuffix(now: string): string {
    "=;expires=" + now + ";path=/"
  }

  /** One cookie rewrite: leading spaces stripped, then the first '=' and the rest of its line
      replaced by "=;expires=<now>;path=/". */
  function ExpireCookie(c: string, now: string): string
  {
    var t := StripLeadingSpaces(c);
    if '=' !in t then t
    else
      var i := Text.IndexOf(t, '=');
      var rest := t[i..];
      t[..i] + ExpirySuffix(now) + rest[LineLength(rest)..]
  }

  /** The rewrite unfolded for a cookie that has an '='. */
  lemma ExpireCookieUnfold(c: string, now: string)
    requires '=' in StripLeadingSpaces(c)
    ensures var t := StripLeadingSpaces(c); var i := Text.IndexOf(t, '='); var rest := t[i..];
      ExpireCookie(c, now) == t[..i] + (ExpirySuffix(now) + rest[LineLength(rest)..])
  {
    var t := StripLeadingSpaces(c);
    var i := Text.IndexOf(t, '=');
    var rest := t[i..];
    var name, suffix, tail := t[..i], ExpirySuffix(now), rest[LineLength(rest)..];
    assert ExpireCookie(c, now) == name + suffix + tail;
    Associative(name, suffix, tail);
  }

  lemma Associative(a: string, b: string, c: string)
    ensures a + b + c == a + (b + c)
  {
  }

  /** The rewritten cookie starts with its name, never with a space. */
  lemma ExpireCookieKeepsName(c: string, now: string)
    ensures var r := ExpireCookie(c, now);
      (r == [] || r[0] != ' ') && CookieName(r) == CookieName(StripLeadingSpaces(c))
  {
    var t := StripLeadingSpaces(c);
    if '=' in t {
      var i := Text.IndexOf(t, '=');
      var rest := t[i..];
      ExpireCookieUnfold(c, now);
      NameThenEquals(t[..i], ExpirySuffix(now) + rest[LineLength(rest)..]);
    }
  }

  /** A cookie without '=' is only stripped of its leading spaces. */
  lemma ExpireCookieWithoutValue(c: string, now: string)
    requires '=' !in c
    ensures ExpireCookie(c, now) == StripLeadingSpaces(c)
  {
    StripKeepsContent(c);
  }

  /** A one-line "name=value" cookie becomes "name=;expires=<now>;path=/". */
  lemma ExpireCookieOneLine(c: string, now: string)
    requires '=' in c && NoLineTerminator(c)
    ensures ExpireCookie(c, now) == CookieName(StripLeadingSpaces(c)) + ExpirySuffix(now)
  {
    var t := StripLeadingSpaces(c);
    StripKeepsContent(c);
    var i := Text.IndexOf(t, '=');
    var rest := t[i..];
    var suffix := ExpirySuffix(now);
    ExpireCookieUnfold(c, now);
    NoLineTerminatorSuffix(t, i);
    assert LineLength(rest) == |rest|;
    EmptyTail(suffix, rest);
    assert CookieName(t) == t[..i];
  }

  lemma EmptyTail(suffix: string, rest: string)
    requires LineLength(rest) == |rest|
    ensures suffix + rest[LineLength(rest)..] == suffix
  {
    assert rest[|rest|..] == [];
  }

  /** Stripping leading spaces neither adds nor removes an '=' or a line terminator. */
  lemma StripKeepsContent(c: string)
    ensures '=' in c <==> '=' in StripLeadingSpaces(c)
    ensures NoLineTerminator(c) ==> NoLineTerminator(StripLeadingSpaces(c))
  {
    StripKeepsEquals(c);
    StripKeepsOneLine(c);
  }

  lemma StripKeepsEquals(c: string)
    ensures '=' in c <==> '=' in StripLeadingSpaces(c)
  {
    var t := StripLeadingSpaces(c);
    var d := |c| - |t|;
    if '=' in c {
      var j := Text.IndexOf(c, '=');
      assert c[j] == '=';
      assert j >= d;
      assert t[j - d] == c[j];
    }
    if '=' in t {
      var j := Text.IndexOf(t, '=');
      assert c[d + j] == t[j];
    }
  }

  lemma StripKeepsOneLine(c: string)
    ensures NoLineTerminator(c) ==> NoLineTerminator(StripLeadingSpaces(c))
  {
    var t := StripLeadingSpaces(c);
    var d := |c| - |t|;
    if NoLineTerminator(c) {
      forall k | 0 <= k < |t|
        ensures !IsLineTerminator(t[k])
      {
        assert t[k] == c[d + k];
      }
    }
  }

  /** A line-free string has line-free suffixes, and `.*` takes all of them. */
  lemma NoLineTerminatorSuffix(t: string, i: nat)
    requires i <= |t|
    ensures NoLineTerminator(t) ==> LineLength(t[i..]) == |t[i..]|
  {
    if NoLineTerminator(t) {
      assert forall k :: 0 <= k < |t[i..]| ==> t[i..][k] == t[i + k];
    }
  }

  /** The name part of "<name>=..." is <name>. */
  lemma NameThenEquals(name: string, rest: string)
    requires '=' !in name && rest != [] && rest[0] == '='
    ensures CookieName(name + rest) == name
  {
    var r := name + rest;
    assert r[|name|] == '=';
    assert r[..|name|] == name;
    var j := Text.IndexOf(r, '=');
    assert r[..j] == name[..j];
  }

  /** Rewriting an already rewritten cookie changes nothing (for an expiry date on one line). */
  lemma ExpireCookieIdempotent(c: string, now: string)
    requires NoLineTerminator(now)
    ensures ExpireCookie(ExpireCookie(c, now), now) == ExpireCookie(c, now)
  {
    var r := ExpireCookie(c, now);
    var t := StripLeadingSpaces(c);
    ExpireCookieKeepsName(c, now);
    assert StripLeadingSpaces(r) == r;
    if '=' in t {
      var i := Text.IndexOf(t, '=');
      var rest := t[i..];
      var name, suffix, tail := t[..i], ExpirySuffix(now), rest[LineLength(rest)..];
      ExpireCookieUnfold(c, now);
      assert r == name + (suffix + tail);
      NameThenEquals(name, suffix + tail);
      assert r[|name|] == '=';
      var j := Text.IndexOf(r, '=');
      assert j == |name| by {
        assert r[..j] == name;
      }
      var rest2 := r[j..];
      assert rest2 == suffix + tail;
      SuffixOneLine(now);
      assert tail == [] || IsLineTerminator(tail[0]);
      LineLengthPrefix(suffix, tail);
      assert rest2[LineLength(rest2)..] == tail;
      ExpireCookieUnfold(r, now);
    }
  }

  /** The expiry text stays on one line when the date does. */
  lemma SuffixOneLine(now: string)
    requires NoLineTerminator(now)
    ensures NoLineTerminator(ExpirySuffix(now))
  {
    var a, b := "=;expires=", ";path=/";
    assert NoLineTerminator(a) && NoLineTerminator(b);
    var s := a + now + b;
    assert s == ExpirySuffix(now);
    forall k | 0 <= k < |s| ensures !IsLineTerminator(s[k]) {
      if k < |a| { assert s[k] == a[k]; }
      else if k < |a| + |now| { assert s[k] == now[k - |a|]; }
      else { assert s[k] == b[k - |a| - |now|]; }
    }
  }

  /** `.*` runs through a line-free prefix up to the line end of what follows, when that starts a new line. */
  lemma {:induction false} LineLengthPrefix(a: string, b: string)
    requires NoLineTerminator(a)
    requires b == [] || IsLineTerminator(b[0])
    ensures LineLength(a + b) == |a|
  {
    if a != [] {
      assert (a + b)[1..] == a[1..] + b;
      LineLengthPrefix(a[1..], b);
    }
  }

  /** What `document.cookie.split(";").forEach(...)` assigns, in order. */
  function ExpiredCookies(cookie: string, now: string): (writes: seq<string>)
    ensures |writes| == |Text.Split(cookie, ';')|
  {
    var parts := Text.Split(cookie, ';');
    seq(|parts|, k requires 0 <= k < |parts| => ExpireCookie(parts[k], now))
  }

  /** The fallback logout: three localStorage keys go, sessionStorage is emptied, every cookie is
      rewritten to expire, and the browser is sent to "/". */
  method DefaultLogout(local: Storage.KeyValueStore, session: Storage.KeyValueStore, cookie: string, now: string)
    returns (cookieWrites: seq<string>, target: string)
    requires local != session
    modifies local, session
    ensures local.items == old(local.items) - {"token", "user", "authToken"}
    ensures session.items == map[]
    ensures cookieWrites == ExpiredCookies(cookie, now)
    ensures target == LogoutTarget
  {
    local.RemoveItem("token");
    local.RemoveItem("user");
    local.RemoveItem("authToken");
    assert local.items == old(local.items) - {"token", "user", "authToken"};
    session.Clear();
    cookieWrites := ExpireAll(cookie, now);
    target := LogoutTarget;
  }

  /** The cookie loop: each ';'-separated piece is rewritten in turn. */
  method ExpireAll(cookie: string, now: string) returns (writes: seq<string>)
    ensures writes == ExpiredCookies(cookie, now)
  {
    var all := ExpiredCookies(cookie, now);
    var parts := Text.Split(cookie, ';');
    writes := [];
    var k := 0;
    while k < |parts|
      invariant 0 <= k <= |parts| == |all|
      invariant writes == all[..k]
    {
      assert all[k] == ExpireCookie(parts[k], now);
      assert all[..k + 1] == all[..k] + [all[k]];
      writes := writes + [ExpireCookie(parts[k], now)];
      k := k + 1;
    }
    assert all[..k] == all;
  }

  /** What selecting a menu item did. */
  datatype NavOutcome = PageSelected | ParentLogout | DefaultLoggedOut(cookieWrites: seq<string>, target: string)

  /** `handleNavigation`: a page item sets the active page and closes the sidebar; the logout item
      leaves both alone and runs the parent's handler if one was given, else the default logout
      (whose errors would be caught and logged, never rethrown). */
  method HandleNavigation(
    shell: App.Shell, itemId: string, hasOnLogout: bool,
    local: Storage.KeyValueStore, session: Storage.KeyValueStore, cookie: string, now: string)
    returns (out: NavOutcome)
    requires local != session
    modifies shell, local, session
    ensures itemId != LogoutId ==>
      out == PageSelected && shell.activePage == itemId && !shell.sidebarOpen
      && local.items == old(local.items) && session.items == old(session.items)
    ensures itemId == LogoutId ==>
      shell.activePage == old(shell.activePage) && shell.sidebarOpen == old(shell.sidebarOpen)
    ensures itemId == LogoutId && hasOnLogout ==>
      out == ParentLogout && local.items == old(local.items) && session.items == old(session.items)
    ensures itemId == LogoutId && !hasOnLogout ==>
      out == DefaultLoggedOut(ExpiredCookies(cookie, now), LogoutTarget)
      && local.items == old(local.items) - {"token", "user", "authToken"}
      && session.items == map[]
  {
    if itemId == LogoutId {
      if hasOnLogout {
        out := ParentLogout;
      } else {
        var writes, target := DefaultLogout(local, session, cookie, now);
        out := DefaultLoggedOut(writes, target);
      }
    } else {
      shell.activePage := itemId;
      shell.sidebarOpen := false;
      out := PageSelected;
    }
  }
}

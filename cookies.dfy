/** The cookie reader of the analytics module in app.js (`getCookie`), over JavaScript's
    `String.prototype.split` with a non-empty separator. */
module Cookies {
  import opened Wrappers
  import opened Text

  /** `s.split(sep)`: the pieces between the non-overlapping occurrences of `sep`, found
      left to right. */
  function Split(s: string, sep: string): (parts: seq<string>)
    requires sep != ""
    ensures |parts| >= 1
    ensures forall k :: 0 <= k < |parts| ==> forall j :: !OccursAt(parts[k], sep, j)
    decreases |s|
  {
    var i := IndexOf(s, sep);
    if i == -1 then [s]
    else
      assert forall j :: !OccursAt(s[..i], sep, j) by {
        forall j | OccursAt(s[..i], sep, j) ensures false {
          assert s[j..j + |sep|] == s[..i][j..j + |sep|];
          assert OccursAt(s, sep, j);
        }
      }
      [s[..i]] + Split(s[i + |sep|..], sep)
  }

  /** `parts.join(sep)`. */
  function Join(parts: seq<string>, sep: string): string
    requires |parts| >= 1
    decreases |parts|
  {
    if |parts| == 1 then parts[0] else parts[0] + sep + Join(parts[1..], sep)
  }

  /** Splitting loses nothing: joining the pieces with the separator gives the string back. */
  lemma {:induction false} SplitJoin(s: string, sep: string)
    requires sep != ""
    ensures Join(Split(s, sep), sep) == s
    decreases |s|
  {
    var i := IndexOf(s, sep);
    if i != -1 {
      var rest := s[i + |sep|..];
      var parts := Split(s, sep);
      assert parts == [s[..i]] + Split(rest, sep);
      assert parts[1..] == Split(rest, sep);
      SplitJoin(rest, sep);
      calc {
        Join(parts, sep);
        s[..i] + sep + Join(Split(rest, sep), sep);
        s[..i] + sep + rest;
        { assert s[i..i + |sep|] == sep; }
        s;
      }
    }
  }

  /** `getCookie(name)` over the cookie string `cookie`: the value after the one
      occurrence of "; name=" in "; " + cookie, up to the next ";". No occurrence, or more
      than one, gives `null` (`None`). */
  function GetCookie(cookie: string, name: string): (r: Option<string>)
    ensures r.Some? <==> |Split("; " + cookie, "; " + name + "=")| == 2
    ensures r.Some? ==> forall j :: !OccursAt(r.value, ";", j)
    ensures r.Some? ==> r.value <= Split("; " + cookie, "; " + name + "=")[1]
  {
    var parts := Split("; " + cookie, "; " + name + "=");
    if |parts| == 2 then Some(Split(parts[1], ";")[0]) else None
  }

  /** No character of "; name=" after the first is a ";" when the name has none. */
  lemma OnlyLeadingSemicolon(name: string, k: int)
    requires !Occurs(name, ";") && 1 <= k < |name| + 3
    ensures ("; " + name + "=")[k] != ';'
  {
    if 2 <= k < |name| + 2 {
      assert ("; " + name + "=")[k] == name[k - 2];
      if name[k - 2] == ';' {
        assert name[k - 2..k - 1] == ";";
        assert OccursAt(name, ";", k - 2);
      }
    }
  }

  /** The first ";" of `value + rest` ends `value` when `value` has none and `rest`
      is empty or starts with one. */
  lemma FirstSemicolon(value: string, rest: string)
    requires !Occurs(value, ";") && (rest == [] || rest[0] == ';')
    ensures Split(value + rest, ";")[0] == value
  {
    var t := value + rest;
    var i := IndexOf(t, ";");
    if i == -1 {
      if rest != [] {
        assert t[|value|..|value| + 1] == ";";
        assert OccursAt(t, ";", |value|);
      }
    } else {
      if i < |value| {
        assert value[i..i + 1] == t[i..i + 1];
        assert OccursAt(value, ";", i);
      }
      if i > |value| {
        assert t[|value|..|value| + 1] == ";";
        assert OccursAt(t, ";", |value|);
      }
      assert t[..i] == value;
    }
  }

  /** The value of a cookie whose name occurs once is read back up to the next ";".
      `front` is everything before "; name=" in "; " + cookie. */
  lemma {:induction false} ReadsTheNamedValue(cookie: string, name: string, front: string, value: string, rest: string)
    requires "; " + cookie == front + ("; " + name + "=") + value + rest
    requires !Occurs(name, ";") && !Occurs(value, ";") && (rest == [] || rest[0] == ';')
    requires !Occurs(front, "; " + name + "=") && !Occurs(value + rest, "; " + name + "=")
    ensures GetCookie(cookie, name) == Some(value)
  {
    var sep := "; " + name + "=";
    var s := "; " + cookie;
    var tail := value + rest;
    assert s == front + (sep + tail);
    assert OccursAt(s, sep, |front|) by {
      assert s[|front|..|front| + |sep|] == sep;
    }
    forall j | 0 <= j < |front| ensures !OccursAt(s, sep, j) {
      if OccursAt(s, sep, j) {
        if j + |sep| <= |front| {
          assert s[j..j + |sep|] == front[j..j + |sep|];
          assert OccursAt(front, sep, j);
        } else {
          assert s[|front|] == ';';
          assert s[|front|] == sep[|front| - j];
          OnlyLeadingSemicolon(name, |front| - j);
        }
      }
    }
    assert IndexOf(s, sep) == |front|;
    assert s[|front| + |sep|..] == tail;
    IndexOfMissing(tail, sep);
    assert Split(s, sep) == [s[..|front|], tail];
    FirstSemicolon(value, rest);
  }

  /** A pattern does not occur at `i` when one of its characters differs there. */
  lemma DiffersAt(s: string, p: string, i: int, k: int)
    requires 0 <= k < |p| && 0 <= i && i + k < |s| && s[i + k] != p[k]
    ensures !OccursAt(s, p, i)
  {
  }

  /** Reading "b" from "a=1; b=2" gives "2". */
  lemma ReadsSecondCookie()
    ensures GetCookie("a=1; b=2", "b") == Some("2")
  {
    forall j | OccursAt("b", ";", j) ensures false { DiffersAt("b", ";", j, 0); }
    forall j | OccursAt("2", ";", j) ensures false { DiffersAt("2", ";", j, 0); }
    forall j | OccursAt("; a=1", "; b=", j) ensures false {
      if j == 0 { DiffersAt("; a=1", "; b=", j, 2); } else { DiffersAt("; a=1", "; b=", j, 0); }
    }
    assert "; " + "b" + "=" == "; b=";
    assert "; " + "a=1; b=2" == "; a=1" + ("; " + "b" + "=") + "2" + "";
    ReadsTheNamedValue("a=1; b=2", "b", "; a=1", "2", "");
  }

  /** A name set twice reads as unset. */
  lemma DuplicateCookieIsUnset()
    ensures GetCookie("b=1; b=2", "b") == None
  {
    var sep := "; b=";
    assert "; " + "b=1; b=2" == "; b=1; b=2";
    assert "; " + "b" + "=" == sep;
    assert OccursAt("; b=1; b=2", sep, 0);
    assert "; b=1; b=2"[4..] == "1; b=2";
    DiffersAt("1; b=2", sep, 0, 0);
    assert OccursAt("1; b=2", sep, 1);
    assert IndexOfFrom("1; b=2", sep, 1) == 1;
    assert IndexOf("1; b=2", sep) == 1;
    assert "1; b=2"[..1] == "1";
    assert "1; b=2"[5..] == "2";
    assert Split("2", sep) == ["2"];
    assert Split("1; b=2", sep) == ["1", "2"];
    assert Split("; b=1; b=2", sep) == ["", "1", "2"];
  }

  /** A name that only ends another cookie's name is not found. */
  lemma SuffixNameIsUnset()
    ensures GetCookie("xa=1", "a") == None
  {
    var sep := "; a=";
    assert "; " + "a" + "=" == sep;
    assert "; " + "xa=1" == "; xa=1";
    forall j | OccursAt("; xa=1", sep, j) ensures false {
      if j == 0 { DiffersAt("; xa=1", sep, j, 2); } else { DiffersAt("; xa=1", sep, j, 0); }
    }
    IndexOfMissing("; xa=1", sep);
  }
}

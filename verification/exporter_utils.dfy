// The helpers of src/exporters/utils.rs shared by the exporters: making a
// command line safe to embed in a quoted label, finding the name of a Qemu
// guest in a command line, and shortening the version string.

module ExporterUtils {
  import opened Wrappers
  import opened Strings

  /** `str::replace` with a character pattern: every `c` replaced by `with`. */
  function Replace(s: string, c: char, with: string): (r: string)
    ensures c !in with ==> c !in r
    ensures forall ch :: ch in r ==> ch in s || ch in with
  {
    if s == [] then []
    else (if s[0] == c then with else [s[0]]) + Replace(s[1..], c, with)
  }

  /** `filter_cmdline`: every '"' escaped as '\"', every '\n' dropped. */
  function FilterCmdline(cmdline: string): (r: string)
    ensures '\n' !in r
  {
    Replace(Replace(cmdline, '"', "\\\""), '\n', "")
  }

  /** Reading an escaped label back: '\"' is a quote, anything else is
      itself. */
  function Unescape(s: string): string
  {
    if |s| >= 2 && s[0] == '\\' && s[1] == '"' then ['"'] + Unescape(s[2..])
    else if s == [] then []
    else [s[0]] + Unescape(s[1..])
  }

  /** The command line without its line breaks. */
  function DropLineBreaks(s: string): string {
    Replace(s, '\n', "")
  }

  /** One character's contribution to `filter_cmdline`. */
  lemma FilterCmdlineCons(c: char, s: string)
    ensures FilterCmdline([c] + s)
            == (if c == '"' then "\\\"" else if c == '\n' then "" else [c]) + FilterCmdline(s)
  {
    var t := [c] + s;
    assert t[1..] == s;
    var escaped := if c == '"' then "\\\"" else [c];
    assert Replace(t, '"', "\\\"") == escaped + Replace(s, '"', "\\\"");
    ReplaceAppend(escaped, Replace(s, '"', "\\\""), '\n', "");
  }

  lemma {:induction false} ReplaceAppend(a: string, b: string, c: char, with: string)
    ensures Replace(a + b, c, with) == Replace(a, c, with) + Replace(b, c, with)
  {
    if a != [] {
      assert (a + b)[0] == a[0] && (a + b)[1..] == a[1..] + b;
      ReplaceAppend(a[1..], b, c, with);
      var head := if a[0] == c then with else [a[0]];
      assert Replace(a + b, c, with) == head + (Replace(a[1..], c, with) + Replace(b, c, with));
    } else {
      assert a + b == b;
    }
  }

  /** No escaped text starts with a bare quote: only an escape can put a
      quote there, and an escape starts with a backslash. */
  lemma FilterCmdlineHead(s: string)
    ensures FilterCmdline(s) == [] || FilterCmdline(s)[0] != '"'
    decreases |s|
  {
    if s != [] {
      FilterCmdlineCons(s[0], s[1..]);
      assert s == [s[0]] + s[1..];
      if s[0] == '\n' {
        FilterCmdlineHead(s[1..]);
      }
    }
  }

  /** Escaping loses nothing but the line breaks: reading the label back
      gives the command line without them. */
  lemma {:induction false} UnescapeFilterCmdline(s: string)
    ensures Unescape(FilterCmdline(s)) == DropLineBreaks(s)
    decreases |s|
  {
    if s != [] {
      var c := s[0];
      var rest := s[1..];
      assert s == [c] + rest;
      FilterCmdlineCons(c, rest);
      UnescapeFilterCmdline(rest);
      var t := FilterCmdline(rest);
      if c == '"' {
        assert FilterCmdline(s) == ['\\', '"'] + t;
        assert (['\\', '"'] + t)[2..] == t;
      } else if c == '\\' {
        FilterCmdlineHead(rest);
        assert FilterCmdline(s) == [c] + t;
        assert ([c] + t)[1..] == t;
      } else if c != '\n' {
        assert FilterCmdline(s) == [c] + t;
        assert ([c] + t)[1..] == t;
        assert DropLineBreaks(s) == [c] + DropLineBreaks(rest);
        assert Unescape([c] + t) == [c] + Unescape(t);
      } else {
        assert FilterCmdline(s) == t;
        assert DropLineBreaks(s) == DropLineBreaks(rest);
      }
    }
  }

  const GUEST_TOKEN: string := "guest="

  /** The text `split("guest=")` puts second: from the end of the first
      "guest=" to the next one, or to the end. */
  function SecondGuestPiece(cmdline: string): (r: string)
    requires Contains(cmdline, GUEST_TOKEN)
  {
    var i := Find(cmdline, GUEST_TOKEN).value;
    var rest := cmdline[i + |GUEST_TOKEN|..];
    match Find(rest, GUEST_TOKEN)
    case Some(k) => rest[..k]
    case None => rest
  }

  /** The guest part of `filter_qemu_cmdline`: the text after the first
      "guest=" up to the next ',', unless there is no "guest=", no ',' follows
      within that option, or the name is empty. */
  function GuestName(cmdline: string): Option<string>
  {
    if Contains(cmdline, GUEST_TOKEN) then
      var piece := SecondGuestPiece(cmdline);
      match IndexOf(piece, ',')
      case None => None
      case Some(j) => if j == 0 then None else Some(piece[..j])
    else None
  }

  /** `filter_qemu_cmdline`: the guest name of a qemu-system command line. */
  function FilterQemuCmdline(cmdline: string): Option<string>
  {
    if Contains(cmdline, "qemu-system") then GuestName(cmdline) else None
  }

  /** A piece that follows "guest=" at `i` and holds a ',' at `j` puts
      "guest=", its first `j` characters and ',' at `i`. */
  lemma GuestWindow(cmdline: string, i: nat, piece: string, j: nat)
    requires OccursAt(cmdline, GUEST_TOKEN, i) && OccursAt(cmdline, piece, i + |GUEST_TOKEN|)
    requires j < |piece| && piece[j] == ','
    ensures OccursAt(cmdline, GUEST_TOKEN + piece[..j] + ",", i)
  {
    var t := |GUEST_TOKEN|;
    var window := cmdline[i..i + t + j + 1];
    assert window[..t] == GUEST_TOKEN;
    assert window[t..] == piece[..j + 1];
    assert piece[..j + 1] == piece[..j] + [','];
    assert window == window[..t] + window[t..];
  }

  /** A guest name is not empty, has no ',', and sits right after the first
      "guest=", followed by ','. */
  lemma GuestNameSound(cmdline: string)
    ensures var r := GuestName(cmdline);
      && (r.Some? ==> Contains(cmdline, GUEST_TOKEN) && |r.value| > 0 && ',' !in r.value)
      && (r.Some? ==> var i := Find(cmdline, GUEST_TOKEN).value;
                      OccursAt(cmdline, GUEST_TOKEN + r.value + ",", i))
  {
    if Contains(cmdline, GUEST_TOKEN) {
      var piece := SecondGuestPiece(cmdline);
      match IndexOf(piece, ',')
      case None =>
      case Some(j) =>
        var i := Find(cmdline, GUEST_TOKEN).value;
        var rest := cmdline[i + |GUEST_TOKEN|..];
        assert piece == rest[..|piece|];
        assert OccursAt(cmdline, piece, i + |GUEST_TOKEN|);
        GuestWindow(cmdline, i, piece, j);
    }
  }

  /** A name is found only in a qemu-system command line, is not empty, has
      no ',', and sits right after the first "guest=", followed by ','. */
  lemma FilterQemuCmdlineSound(cmdline: string)
    ensures var r := FilterQemuCmdline(cmdline);
      && (r.Some? ==> Contains(cmdline, "qemu-system") && Contains(cmdline, GUEST_TOKEN))
      && (r.Some? ==> |r.value| > 0 && ',' !in r.value)
      && (r.Some? ==> var i := Find(cmdline, GUEST_TOKEN).value;
                      OccursAt(cmdline, GUEST_TOKEN + r.value + ",", i))
  {
    GuestNameSound(cmdline);
  }

  /** The three ways `filter_qemu_cmdline` gives nothing besides a
      non-qemu command line: no "guest=", no ',' in the option, or an
      empty name. */
  lemma GuestNameNone(cmdline: string)
    ensures GuestName(cmdline).None? <==>
      !Contains(cmdline, GUEST_TOKEN)
      || ',' !in SecondGuestPiece(cmdline)
      || SecondGuestPiece(cmdline)[0] == ','
  {
    if Contains(cmdline, GUEST_TOKEN) {
      var piece := SecondGuestPiece(cmdline);
      if ',' in piece {
        assert piece[0] == ',' <==> IndexOf(piece, ',') == Some(0);
      }
    }
  }

  lemma FilterQemuCmdlineNone(cmdline: string)
    requires Contains(cmdline, "qemu-system")
    ensures FilterQemuCmdline(cmdline).None? <==>
      !Contains(cmdline, GUEST_TOKEN)
      || ',' !in SecondGuestPiece(cmdline)
      || SecondGuestPiece(cmdline)[0] == ','
  {
    GuestNameNone(cmdline);
  }

  /** A "guest=" option cannot start inside `name + ","` when the name has
      no '=' and no ','. */
  lemma NoGuestTokenInName(rest: string, name: string, k: nat)
    requires StartsWith(rest, name + ",") && '=' !in name && ',' !in name
    requires k <= |name|
    ensures !OccursAt(rest, GUEST_TOKEN, k)
  {
    if k + |GUEST_TOKEN| <= |rest| {
      var window := rest[k..k + |GUEST_TOKEN|];
      if k + 5 < |name| {
        assert rest[..|name| + 1][k + 5] == name[k + 5];
        assert window[5] != GUEST_TOKEN[5];
      } else {
        assert rest[..|name| + 1][|name|] == ',';
        assert window[|name| - k] != GUEST_TOKEN[|name| - k];
      }
    }
  }

  /** The piece after the first "guest=" of `name + "," + post` starts with
      `name + ","`. */
  lemma SecondPieceStartsWithName(rest: string, name: string)
    requires StartsWith(rest, name + ",") && '=' !in name && ',' !in name
    ensures var piece := match Find(rest, GUEST_TOKEN) case Some(k) => rest[..k] case None => rest;
      StartsWith(piece, name + ",")
  {
    match Find(rest, GUEST_TOKEN)
    case Some(k) =>
      if k <= |name| {
        NoGuestTokenInName(rest, name, k);
      }
      assert rest[..k][..|name| + 1] == rest[..|name| + 1];
    case None =>
  }

  /** The guest name of a command line whose first "guest=" option is
      `name` followed by ',' is found. */
  lemma GuestNameFindsGuest(pre: string, name: string, post: string)
    requires var cmdline := pre + GUEST_TOKEN + name + "," + post;
      forall k :: 0 <= k < |pre| ==> !OccursAt(cmdline, GUEST_TOKEN, k)
    requires |name| > 0 && '=' !in name && ',' !in name
    ensures GuestName(pre + GUEST_TOKEN + name + "," + post) == Some(name)
  {
    var cmdline := pre + GUEST_TOKEN + name + "," + post;
    assert cmdline[|pre|..|pre| + |GUEST_TOKEN|] == GUEST_TOKEN;
    assert OccursAt(cmdline, GUEST_TOKEN, |pre|);
    var i := Find(cmdline, GUEST_TOKEN).value;
    assert i == |pre|;
    var rest := cmdline[i + |GUEST_TOKEN|..];
    assert rest == name + "," + post;
    assert rest[..|name| + 1] == name + ",";
    SecondPieceStartsWithName(rest, name);
    var piece := SecondGuestPiece(cmdline);
    assert piece[..|name| + 1] == name + ",";
    assert piece[|name|] == ',';
    IndexOfFirst(piece, ',', |name|);
    assert piece[..|name|] == name;
  }

  /** The guest name of a qemu command line whose first "guest=" option is
      `name` followed by ',' is found. */
  lemma FilterQemuCmdlineFindsGuest(pre: string, name: string, post: string)
    requires var cmdline := pre + GUEST_TOKEN + name + "," + post;
      Contains(cmdline, "qemu-system")
      && (forall k :: 0 <= k < |pre| ==> !OccursAt(cmdline, GUEST_TOKEN, k))
    requires |name| > 0 && '=' !in name && ',' !in name
    ensures FilterQemuCmdline(pre + GUEST_TOKEN + name + "," + post) == Some(name)
  {
    GuestNameFindsGuest(pre, name, post);
  }

  /** `get_scaphandre_version` applied to the crate version: the major
      number, a dot, then the second and third numbers run together; the
      source unwraps the three fields. */
  function ScaphandreVersion(crateVersion: string): (r: string)
    requires |Split(crateVersion, '.')| >= 3
  {
    var parts := Split(crateVersion, '.');
    parts[0] + "." + parts[1] + parts[2]
  }

  /** "a.b.c" becomes "a.bc" for dot-free fields, as "1.0.2" → "1.02". */
  lemma ScaphandreVersionOfTriple(a: string, b: string, c: string)
    requires '.' !in a && '.' !in b && '.' !in c
    ensures |Split(a + "." + b + "." + c, '.')| == 3
    ensures ScaphandreVersion(a + "." + b + "." + c) == a + "." + b + c
  {
    assert a + "." + b + "." + c == a + ['.'] + (b + ['.'] + c);
    SplitAround(a, '.', b + ['.'] + c);
    SplitAround(b, '.', c);
  }
}

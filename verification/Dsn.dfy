/**
 The libpq keyword/value scanner that reads one keyword out of a DSN (PostgreSQL documentation,
 "Keyword/Value Connection Strings", section 34.1.1.1).
 */
module Dsn {
  import opened Text

  /** " \t\n\r\v\f". */
  predicate Blank(c: char) { c == ' ' || '\t' <= c <= '\r' }

  // ---------- unescaping ----------

  /** `strings.ReplaceAll` of the two characters `x y` by `r`. */
  function ReplacePair(s: string, x: char, y: char, r: char): string {
    if |s| < 2 then s
    else if s[0] == x && s[1] == y then [r] + ReplacePair(s[2..], x, y, r)
    else [s[0]] + ReplacePair(s[1..], x, y, r)
  }

  /** First `\\` to `\`, then `\'` to `'`. */
  function Unescape(v: string): string {
    ReplacePair(ReplacePair(v, '\\', '\\', '\\'), '\\', '\'', '\'')
  }

  // ---------- scanning ----------

  /** Where a quoted value ends; past the end of `s` when its quote is never closed. */
  function QuotedEnd(s: string, i: nat): (end: nat)
    ensures i <= end
    decreases |s| - i
  {
    if i >= |s| || s[i] == '\'' then i
    else if s[i] == '\\' then QuotedEnd(s, i + 2)
    else QuotedEnd(s, i + 1)
  }

  /** Where an unquoted value ends; `None` when it ends in a lone backslash. */
  function BareEnd(s: string, i: nat): (end: Option<nat>)
    requires i <= |s|
    ensures end.Some? ==> i <= end.value <= |s|
    decreases |s| - i
  {
    if i == |s| || Blank(s[i]) then Some(i)
    else if s[i] != '\\' then BareEnd(s, i + 1)
    else if i + 1 == |s| then None
    else BareEnd(s, i + 2)
  }

  datatype Scanned = Scanned(value: string, rest: string)

  function ScanValue(s: string): (r: Option<Scanned>)
    ensures r.Some? ==> |r.value.rest| <= |s|
  {
    if s == "" then Some(Scanned("", ""))
    else if s[0] != '\'' then
      var end := BareEnd(s, 0);
      if end.None? then None else Some(Scanned(Unescape(s[..end.value]), TrimLeft(s[end.value..], Blank)))
    else
      var end := QuotedEnd(s[1..], 0);
      if end >= |s| - 1 then None
      else Some(Scanned(Unescape(s[1..][..end]), TrimLeft(s[1..][end + 1..], Blank)))
  }

  /** The settings of a DSN already trimmed on the left, or `None` where pgx refuses it. */
  function Settings(s: string): Option<seq<(string, string)>>
    decreases |s|
  {
    if s == "" then Some([])
    else
      var eq := IndexOf(s, '=');
      if eq == |s| then None
      else
        var key := Trim(s[..eq], Blank);
        var value := ScanValue(TrimLeft(s[eq + 1..], Blank));
        if key == "" || value.None? then None
        else
          var rest := Settings(value.value.rest);
          if rest.None? then None else Some([(key, value.value.value)] + rest.value)
  }

  /** The last value bound to the keyword, or "". */
  function LastBinding(settings: seq<(string, string)>, keyword: string): string {
    if settings == [] then ""
    else
      var (key, value) := settings[|settings| - 1];
      if key == keyword then value else LastBinding(settings[..|settings| - 1], keyword)
  }

  /** Of several bindings of a keyword the last one counts, and without one the value is empty. */
  lemma {:induction false} LastBindingIsLast(settings: seq<(string, string)>, keyword: string, i: int)
    requires -1 <= i < |settings| && (i >= 0 ==> settings[i].0 == keyword)
    requires forall j | i < j < |settings| :: settings[j].0 != keyword
    ensures LastBinding(settings, keyword) == if i >= 0 then settings[i].1 else ""
  {
    var n := |settings| - 1;
    if i < n {
      assert settings[n].0 != keyword;
      LastBindingIsLast(settings[..n], keyword, i);
    }
  }

  function KeywordValue(dsn: string, keyword: string): string {
    var settings := Settings(TrimLeft(dsn, Blank));
    if settings.None? then "" else LastBinding(settings.value, keyword)
  }

  // ---------- the scanner's loops ----------

  method ScanDsnValue(s: string) returns (value: string, rest: string, ok: bool)
    ensures ok <==> ScanValue(s).Some?
    ensures ok ==> ScanValue(s) == Some(Scanned(value, rest))
  {
    hide Unescape, TrimLeft, Blank;
    if s == "" {
      return "", "", true;
    }
    if s[0] != '\'' {
      var end := 0;
      while end < |s| && !Blank(s[end])
        invariant 0 <= end <= |s| && BareEnd(s, 0) == BareEnd(s, end)
      {
        if s[end] == '\\' {
          end := end + 1;
          if end == |s| {
            return "", "", false;
          }
        }
        end := end + 1;
      }
      return Unescape(s[..end]), TrimLeft(s[end..], Blank), true;
    }
    var t, end := s[1..], 0;
    while end < |t| && t[end] != '\''
      invariant 0 <= end <= |t| + 1 && QuotedEnd(t, 0) == QuotedEnd(t, end)
    {
      if t[end] == '\\' {
        end := end + 1;
      }
      end := end + 1;
    }
    if end >= |t| {
      return "", "", false;
    }
    return Unescape(t[..end]), TrimLeft(t[end + 1..], Blank), true;
  }

  function After(read: seq<(string, string)>, more: Option<seq<(string, string)>>): Option<seq<(string, string)>> {
    if more.None? then None else Some(read + more.value)
  }

  lemma FirstSetting(s: string, eq: nat, key: string, value: string, rest: string)
    requires s != "" && eq == IndexOf(s, '=') < |s| && key == Trim(s[..eq], Blank) != ""
    requires ScanValue(TrimLeft(s[eq + 1..], Blank)) == Some(Scanned(value, rest))
    ensures Settings(s) == After([(key, value)], Settings(rest)) && |rest| < |s|
  {
    hide ScanValue, Trim, TrimLeft;
  }

  lemma ReadOne(read: seq<(string, string)>, key: string, value: string, more: Option<seq<(string, string)>>, keyword: string)
    ensures After(read, After([(key, value)], more)) == After(read + [(key, value)], more)
    ensures LastBinding(read + [(key, value)], keyword) == if key == keyword then value else LastBinding(read, keyword)
  {
    if more.Some? {
      assert read + ([(key, value)] + more.value) == read + [(key, value)] + more.value;
    }
    assert (read + [(key, value)])[..|read|] == read;
  }

  lemma ReadEnd(read: seq<(string, string)>)
    ensures After(read, Settings("")) == Some(read)
  {
    assert read + [] == read;
  }

  /** `dsnKeywordValue`. */
  method DsnKeywordValue(dsn: string, keyword: string) returns (found: string)
    ensures found == KeywordValue(dsn, keyword)
  {
    found := "";
    var s := TrimLeft(dsn, Blank);
    ghost var all, read := Settings(s), [];
    assert all == After(read, Settings(s)) by {
      if all.Some? {
        assert read + all.value == all.value;
      }
    }
    while s != ""
      invariant all == Settings(TrimLeft(dsn, Blank)) == After(read, Settings(s))
      invariant found == LastBinding(read, keyword)
      decreases |s|
    {
      hide ScanValue, Trim, TrimLeft, LastBinding;
      var eq := IndexOf(s, '=');
      if eq == |s| {
        return "";
      }
      var key := Trim(s[..eq], Blank);
      if key == "" {
        return "";
      }
      var value, rest, ok := ScanDsnValue(TrimLeft(s[eq + 1..], Blank));
      if !ok {
        return "";
      }
      FirstSetting(s, eq, key, value, rest);
      ReadOne(read, key, value, Settings(rest), keyword);
      s := rest;
      if key == keyword {
        found := value;
      }
      read := read + [(key, value)];
    }
    ReadEnd(read);
  }

  // ---------- escaping and unescaping ----------

  function Escape(v: string): string {
    if v == "" then ""
    else (if v[0] == '\\' || v[0] == '\'' then ['\\', v[0]] else [v[0]]) + Escape(v[1..])
  }

  /** What the first pass leaves: only the quotes still escaped. */
  function EscapeQuotes(v: string): (r: string)
    ensures r == "" <==> v == ""
    ensures r != "" ==> r[0] != '\''
  {
    if v == "" then "" else (if v[0] == '\'' then ['\\', v[0]] else [v[0]]) + EscapeQuotes(v[1..])
  }

  lemma {:induction false} FirstPass(v: string)
    ensures ReplacePair(Escape(v), '\\', '\\', '\\') == EscapeQuotes(v)
  {
    if v != "" {
      FirstPass(v[1..]);
      var rest := Escape(v[1..]);
      if v[0] == '\'' {
        assert Escape(v)[1..] == ['\''] + rest && (['\''] + rest)[1..] == rest;
      } else if v[0] == '\\' {
        assert Escape(v)[2..] == rest;
      } else {
        assert Escape(v)[1..] == rest;
      }
    }
  }

  lemma {:induction false} SecondPass(v: string)
    ensures ReplacePair(EscapeQuotes(v), '\\', '\'', '\'') == v
  {
    if v != "" {
      SecondPass(v[1..]);
      var rest := EscapeQuotes(v[1..]);
      if v[0] == '\'' {
        assert EscapeQuotes(v)[2..] == rest;
      } else {
        assert EscapeQuotes(v)[1..] == rest;
      }
    }
  }

  /** The two passes undo the escaping of every value. */
  lemma UnescapeInverts(v: string)
    ensures Unescape(Escape(v)) == v
  {
    FirstPass(v);
    SecondPass(v);
  }

  // ---------- rendered settings ----------

  /** One setting with the blanks around it; quoted, or bare where that is possible. */
  datatype Setting = Setting(key: string, value: string, quoted: bool, afterKey: string, afterEq: string, after: string)

  predicate Blanks(s: string) { forall c | c in s :: Blank(c) }

  predicate SettingOk(x: Setting, last: bool) {
    && x.key != "" && '=' !in x.key && !Blank(x.key[0]) && !Blank(x.key[|x.key| - 1])
    && Blanks(x.afterKey) && Blanks(x.afterEq) && Blanks(x.after)
    && (!x.quoted ==> (forall c | c in x.value :: !Blank(c)) && (last || (x.value != "" && x.after != "")))
  }

  function Raw(x: Setting): string {
    if x.quoted then "'" + Escape(x.value) + "'" else Escape(x.value)
  }

  function Render(settings: seq<Setting>, tail: string): string {
    if settings == [] then tail
    else
      var x := settings[0];
      x.key + (x.afterKey + ("=" + (x.afterEq + (Raw(x) + (x.after + Render(settings[1..], tail))))))
  }

  function Bindings(settings: seq<Setting>): seq<(string, string)> {
    if settings == [] then [] else [(settings[0].key, settings[0].value)] + Bindings(settings[1..])
  }

  lemma {:induction false} TrimLeftPad(pad: string, s: string)
    requires Blanks(pad) && (s == "" || !Blank(s[0]))
    ensures TrimLeft(pad + s, Blank) == s
  {
    if pad == "" {
      assert pad + s == s;
    } else {
      assert (pad + s)[0] == pad[0] && pad[0] in pad && (pad + s)[1..] == pad[1..] + s;
      TrimLeftPad(pad[1..], s);
    }
  }

  lemma {:induction false} TrimRightPad(s: string, pad: string)
    requires Blanks(pad) && (s == "" || !Blank(s[|s| - 1]))
    ensures TrimRight(s + pad, Blank) == s
  {
    if pad == "" {
      assert s + pad == s;
    } else {
      var n := |pad| - 1;
      assert (s + pad)[|s + pad| - 1] == pad[n] && pad[n] in pad && (s + pad)[..|s + pad| - 1] == s + pad[..n];
      TrimRightPad(s, pad[..n]);
    }
  }

  lemma KeyTrims(key: string, pad: string)
    requires key != "" && !Blank(key[0]) && !Blank(key[|key| - 1]) && Blanks(pad)
    ensures Trim(key + pad, Blank) == key
  {
    TrimLeftPad("", key + pad);
    assert "" + (key + pad) == key + pad;
    TrimRightPad(key, pad);
  }

  /** The scan of a quoted value passes over escaped text. */
  lemma {:induction false} QuotedSkips(v: string, front: string, tail: string)
    ensures var s := front + (Escape(v) + tail); QuotedEnd(s, |front|) == QuotedEnd(s, |front + Escape(v)|)
    decreases |v|
  {
    var s := front + (Escape(v) + tail);
    if v != "" {
      var next := front + if v[0] == '\\' || v[0] == '\'' then ['\\', v[0]] else [v[0]];
      assert s == next + (Escape(v[1..]) + tail) && front + Escape(v) == next + Escape(v[1..]);
      QuotedSkips(v[1..], next, tail);
      assert s[|front|] == next[|front|];
    }
  }

  /** So does the scan of a bare one, when the text has no blanks. */
  lemma {:induction false} BareSkips(v: string, front: string, tail: string)
    requires forall c | c in v :: !Blank(c)
    ensures var s := front + (Escape(v) + tail); BareEnd(s, |front|) == BareEnd(s, |front + Escape(v)|)
    decreases |v|
  {
    var s := front + (Escape(v) + tail);
    if v != "" {
      var next := front + if v[0] == '\\' || v[0] == '\'' then ['\\', v[0]] else [v[0]];
      assert s == next + (Escape(v[1..]) + tail) && front + Escape(v) == next + Escape(v[1..]);
      BareSkips(v[1..], next, tail);
      assert v[0] in v && s[|front|] == next[|front|];
    }
  }

  /** A quoted value ends at its closing quote, and not at all when there is none. */
  lemma QuotedScan(v: string, tail: string)
    ensures QuotedEnd(Escape(v) + ("'" + tail), 0) == |Escape(v)|
    ensures QuotedEnd(Escape(v), 0) >= |Escape(v)| && QuotedEnd(Escape(v) + "\\", 0) >= |Escape(v)| + 1
  {
    hide Escape;
    QuotedSkips(v, "", "'" + tail);
    QuotedSkips(v, "", "");
    QuotedSkips(v, "", "\\");
    assert forall t :: "" + (Escape(v) + t) == Escape(v) + t;
    assert Escape(v) + "" == Escape(v) == "" + Escape(v);
  }

  /** A bare value ends at the first blank after it, or at the end; a lone backslash spoils it. */
  lemma BareScan(v: string, tail: string)
    requires (forall c | c in v :: !Blank(c)) && (tail == "" || Blank(tail[0]))
    ensures BareEnd(Escape(v) + tail, 0) == Some(|Escape(v)|) && BareEnd(Escape(v) + "\\", 0).None?
  {
    hide Escape;
    BareSkips(v, "", tail);
    BareSkips(v, "", "\\");
    assert forall t :: "" + (Escape(v) + t) == Escape(v) + t;
    assert "" + Escape(v) == Escape(v);
  }

  /** A text that can follow a setting. */
  predicate Starts(tail: string) { tail == "" || !Blank(tail[0]) }

  lemma ScanRaw(x: Setting, tail: string)
    requires SettingOk(x, tail == "") && Starts(tail) && (x.quoted || x.value != "")
    ensures ScanValue(Raw(x) + (x.after + tail)) == Some(Scanned(x.value, tail))
  {
    hide Unescape;
    var rest := x.after + tail;
    var s := Raw(x) + rest;
    UnescapeInverts(x.value);
    if x.quoted {
      QuotedScan(x.value, rest);
      assert Escape(x.value) + ("'" + rest) == s[1..];
      assert s[1..][..|Escape(x.value)|] == Escape(x.value) && s[1..][|Escape(x.value)| + 1..] == rest;
      TrimLeftPad(x.after, tail);
    } else {
      BareValueScans(x, tail);
    }
  }

  lemma EscapeStarts(v: string)
    requires v != ""
    ensures Escape(v) != "" && Escape(v)[0] != '\'' && (Escape(v)[0] == v[0] || Escape(v)[0] == '\\')
  {
  }

  lemma BareFollows(x: Setting, tail: string)
    requires SettingOk(x, tail == "") && Starts(tail) && !x.quoted
    ensures var rest := x.after + tail; rest == "" || Blank(rest[0])
    ensures forall c | c in x.value :: !Blank(c)
  {
    if x.after != "" {
      assert (x.after + tail)[0] == x.after[0] && x.after[0] in x.after;
    }
  }

  lemma BareValueScans(x: Setting, tail: string)
    requires SettingOk(x, tail == "") && Starts(tail) && !x.quoted && x.value != ""
    ensures ScanValue(Escape(x.value) + (x.after + tail)) == Some(Scanned(Unescape(Escape(x.value)), tail))
  {
    hide Unescape, Escape, BareEnd, TrimLeft;
    var rest := x.after + tail;
    var s := Escape(x.value) + rest;
    EscapeStarts(x.value);
    BareFollows(x, tail);
    BareScan(x.value, rest);
    assert s[..|Escape(x.value)|] == Escape(x.value) && s[|Escape(x.value)|..] == rest;
    TrimLeftPad(x.after, tail);
  }

  predicate AllOk(settings: seq<Setting>, tail: string) {
    forall i | 0 <= i < |settings| :: SettingOk(settings[i], i == |settings| - 1 && tail == "")
  }

  lemma RenderStarts(settings: seq<Setting>, tail: string)
    requires AllOk(settings, tail) && Starts(tail)
    ensures Starts(Render(settings, tail)) && (settings != [] ==> Render(settings, tail) != "")
  {
    if settings != [] {
      assert SettingOk(settings[0], 0 == |settings| - 1 && tail == "");
    }
  }

  lemma RawStarts(x: Setting, last: bool)
    requires SettingOk(x, last) && (x.quoted || x.value != "")
    ensures Raw(x) != "" && !Blank(Raw(x)[0])
  {
    if !x.quoted {
      EscapeStarts(x.value);
      assert x.value[0] in x.value;
    }
  }

  /** Rendered settings are read back in order, and what follows them is read as if it stood alone. */
  lemma {:induction false} RenderedSettings(settings: seq<Setting>, tail: string)
    requires AllOk(settings, tail) && Starts(tail)
    ensures Settings(Render(settings, tail)) == After(Bindings(settings), Settings(tail))
    decreases |settings|
  {
    hide Settings, ScanValue, Trim, TrimLeft, Raw, SettingOk;
    if settings == [] {
      AfterNothing(Settings(tail));
    } else {
      var x, more := settings[0], Render(settings[1..], tail);
      assert AllOk(settings[1..], tail);
      RenderStarts(settings[1..], tail);
      OneRendered(x, more);
      RenderedSettings(settings[1..], tail);
      AfterPair(x.key, x.value, Bindings(settings[1..]), Settings(tail));
    }
  }

  lemma AfterNothing(more: Option<seq<(string, string)>>)
    ensures After([], more) == more
  {
    if more.Some? {
      assert [] + more.value == more.value;
    }
  }

  lemma AfterPair(key: string, value: string, read: seq<(string, string)>, more: Option<seq<(string, string)>>)
    ensures After([(key, value)], After(read, more)) == After([(key, value)] + read, more)
  {
    if more.Some? {
      assert [(key, value)] + (read + more.value) == [(key, value)] + read + more.value;
    }
  }

  /** The first `=` follows the key and its blanks. */
  lemma KeyEnds(key: string, pad: string, rest: string)
    requires '=' !in key && Blanks(pad)
    ensures var s := key + (pad + ("=" + rest));
            IndexOf(s, '=') == |key + pad| < |s| && s[..|key + pad|] == key + pad && s[|key + pad| + 1..] == rest
  {
    var head := key + pad;
    assert '=' !in head;
    assert key + (pad + ("=" + rest)) == head + ("=" + rest);
    IndexOfAppend(head, "=" + rest, '=');
  }

  lemma SettingReads(key: string, pad: string, gap: string, raw: string, value: string, tail: string)
    requires key != "" && '=' !in key && !Blank(key[0]) && !Blank(key[|key| - 1]) && Blanks(pad) && Blanks(gap)
    requires (raw == "" || !Blank(raw[0])) && ScanValue(raw) == Some(Scanned(value, tail))
    ensures Settings(key + (pad + ("=" + (gap + raw)))) == After([(key, value)], Settings(tail))
  {
    hide *;
    KeyEnds(key, pad, gap + raw);
    KeyTrims(key, pad);
    TrimLeftPad(gap, raw);
    SplitSetting(key + (pad + ("=" + (gap + raw))), key + pad, gap + raw, key, raw, value, tail);
  }

  lemma SplitSetting(s: string, left: string, right: string, key: string, raw: string, value: string, tail: string)
    requires IndexOf(s, '=') == |left| < |s| && s[..|left|] == left && s[|left| + 1..] == right
    requires Trim(left, Blank) == key != "" && TrimLeft(right, Blank) == raw && ScanValue(raw) == Some(Scanned(value, tail))
    ensures Settings(s) == After([(key, value)], Settings(tail))
  {
    hide *;
    FirstSetting(s, |left|, key, value, tail);
  }

  lemma OneRendered(x: Setting, tail: string)
    requires SettingOk(x, tail == "") && Starts(tail)
    ensures Settings(x.key + (x.afterKey + ("=" + (x.afterEq + (Raw(x) + (x.after + tail)))))) == After([(x.key, x.value)], Settings(tail))
  {
    hide Settings, After;
    if x.quoted || x.value != "" {
      hide ScanValue, Raw, Blanks;
      RawStarts(x, tail == "");
      ScanRaw(x, tail);
      SettingReads(x.key, x.afterKey, x.afterEq, Raw(x) + (x.after + tail), x.value, tail);
    } else {
      // An empty value at the end: the blanks after it count as blanks before it.
      assert x.afterEq + (Raw(x) + (x.after + tail)) == (x.afterEq + x.after) + "";
      SettingReads(x.key, x.afterKey, x.afterEq + x.after, "", "", "");
    }
  }

  /** Whatever the settings are, the keyword's last value is found, and text inside a value binds nothing. */
  lemma KeywordOfRendered(lead: string, settings: seq<Setting>, keyword: string)
    requires Blanks(lead) && AllOk(settings, "")
    ensures KeywordValue(lead + Render(settings, ""), keyword) == LastBinding(Bindings(settings), keyword)
  {
    hide Settings, SettingOk;
    RenderStarts(settings, "");
    TrimLeftPad(lead, Render(settings, ""));
    RenderedSettings(settings, "");
    ReadEnd(Bindings(settings));
  }

  lemma UnreadableValue(key: string, pad: string, gap: string, raw: string)
    requires key != "" && '=' !in key && !Blank(key[0]) && !Blank(key[|key| - 1]) && Blanks(pad) && Blanks(gap)
    requires raw != "" && !Blank(raw[0]) && ScanValue(raw).None?
    ensures Settings(key + (pad + ("=" + (gap + raw)))).None?
  {
    hide *;
    var left, right := key + pad, gap + raw;
    KeyEnds(key, pad, right);
    TrimLeftPad(gap, raw);
    FirstUnreadable(key + (pad + ("=" + right)), left, right);
  }

  lemma FirstUnreadable(s: string, left: string, right: string)
    requires IndexOf(s, '=') == |left| < |s| && s[..|left|] == left && s[|left| + 1..] == right
    requires ScanValue(TrimLeft(right, Blank)).None?
    ensures Settings(s).None?
  {
    hide ScanValue, Trim, TrimLeft;
  }

  /** Malformed are a text without `=`, one without a key, a quoted value without its closing quote, and a bare value that
      ends in a lone backslash. */
  lemma MalformedTails(tail: string, key: string, pad: string, gap: string, v: string)
    ensures tail != "" && '=' !in tail ==> Settings(tail).None?
    ensures Blanks(pad) ==> Settings(pad + ("=" + tail)).None?
    ensures SettingOk(Setting(key, v, true, pad, gap, ""), true) ==>
              && Settings(key + (pad + ("=" + (gap + ("'" + Escape(v)))))).None?
              && Settings(key + (pad + ("=" + (gap + ("'" + (Escape(v) + "\\")))))).None?
    ensures SettingOk(Setting(key, v, false, pad, gap, ""), true) ==>
              Settings(key + (pad + ("=" + (gap + (Escape(v) + "\\"))))).None?
  {
    hide Settings, TrimLeft, Trim, Escape, Unescape, QuotedEnd, BareEnd;
    KeylessIsMalformed(tail, pad);
    QuotedScan(v, "");
    assert ("'" + Escape(v))[1..] == Escape(v) && ("'" + (Escape(v) + "\\"))[1..] == Escape(v) + "\\";
    if SettingOk(Setting(key, v, true, pad, gap, ""), true) {
      UnreadableValue(key, pad, gap, "'" + Escape(v));
      UnreadableValue(key, pad, gap, "'" + (Escape(v) + "\\"));
    }
    if SettingOk(Setting(key, v, false, pad, gap, ""), true) {
      BareScan(v, "");
      BareStarts(v);
      UnreadableValue(key, pad, gap, Escape(v) + "\\");
    }
  }

  lemma BareStarts(v: string)
    requires forall c | c in v :: !Blank(c)
    ensures var raw := Escape(v) + "\\"; !Blank(raw[0]) && raw[0] != '\''
  {
    if v != "" {
      assert v[0] in v && (Escape(v) + "\\")[0] == Escape(v)[0];
    }
  }

  lemma KeylessIsMalformed(tail: string, pad: string)
    ensures tail != "" && '=' !in tail ==> Settings(tail).None?
    ensures Blanks(pad) ==> Settings(pad + ("=" + tail)).None?
  {
    hide ScanValue, Trim;
    if Blanks(pad) {
      KeyEnds("", pad, tail);
      assert "" + (pad + ("=" + tail)) == pad + ("=" + tail) && "" + pad == pad;
      TrimEmpty(pad, Blank);
    }
  }

  /** A malformed rest, whatever is wrong with it, hides every value before it. */
  lemma MalformedHidesAll(lead: string, settings: seq<Setting>, tail: string, keyword: string)
    requires Blanks(lead) && AllOk(settings, tail) && Starts(tail) && Settings(tail).None?
    ensures KeywordValue(lead + Render(settings, tail), keyword) == ""
  {
    hide Settings, SettingOk;
    RenderStarts(settings, tail);
    TrimLeftPad(lead, Render(settings, tail));
    RenderedSettings(settings, tail);
  }
}

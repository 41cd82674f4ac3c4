/** File names made safe, file names checked, and the check of a destination path. Names are Unicode scalar values. */
module FileNames {
  import opened Wrappers

  datatype Refusal = Empty | TooLong | NulByte | PathSeparator | ControlCharacter | ParentTraversal | NoFileName | ReservedName

  const MAX_NAME: nat := 255
  const FALLBACK: string := "download.bin"
  const SUFFIX: string := ".bin"

  /** The control characters of Unicode. */
  predicate IsControl(c: char) {
    c as int < 0x20 || 0x7F <= c as int <= 0x9F
  }

  predicate Unsafe(c: char) {
    IsControl(c) || c == '/' || c == '\\' || c == ':' || c == '*' || c == '?' || c == '"' || c == '<' || c == '>' || c == '|'
  }

  const FORBIDDEN: string := "/\\:*?\"<>|"

  /** The forbidden punctuation, as a list. */
  lemma UnsafeIsListed(c: char)
    ensures Unsafe(c) <==> IsControl(c) || c in FORBIDDEN
  {}

  function Utf8Width(c: char): (n: nat)
    ensures 1 <= n <= 4
  {
    if c as int < 0x80 then 1 else if c as int < 0x800 then 2 else if c as int < 0x1_0000 then 3 else 4
  }

  /** A character in UTF-8 (RFC 3629, section 3): its length is in the first byte, its bits in groups of six. */
  function Utf8(c: char): seq<int> {
    var n := c as int;
    var (last, middle, first) := (0x80 + n % 0x40, 0x80 + n / 0x40 % 0x40, 0x80 + n / 0x1000 % 0x40);
    match Utf8Width(c)
    case 1 => [n]
    case 2 => [0xC0 + n / 0x40, last]
    case 3 => [0xE0 + n / 0x1000, middle, last]
    case _ => [0xF0 + n / 0x4_0000, first, middle, last]
  }

  /** How many bytes an encoding has whose first byte is `b`. */
  function WidthByLead(b: int): nat {
    if b < 0x80 then 1
    else if 0xC2 <= b < 0xE0 then 2
    else if 0xE0 <= b < 0xF0 then 3
    else if 0xF0 <= b < 0xF5 then 4
    else 0
  }

  /** The number that the groups of six bits after the first byte and that byte's own bits make up. */
  function FromUtf8(bytes: seq<int>): int
    requires bytes != []
  {
    var lead := bytes[0];
    match |bytes|
    case 1 => lead
    case 2 => (lead - 0xC0) * 0x40 + bytes[1] - 0x80
    case 3 => ((lead - 0xE0) * 0x40 + bytes[1] - 0x80) * 0x40 + bytes[2] - 0x80
    case 4 => (((lead - 0xF0) * 0x40 + bytes[1] - 0x80) * 0x40 + bytes[2] - 0x80) * 0x40 + bytes[3] - 0x80
    case _ => 0
  }

  lemma GroupsOfSix(n: nat)
    ensures n == n / 0x40 * 0x40 + n % 0x40
    ensures n / 0x40 == n / 0x1000 * 0x40 + n / 0x40 % 0x40
    ensures n / 0x1000 == n / 0x4_0000 * 0x40 + n / 0x1000 % 0x40
  {}

  /** The width counted is that of the encoding, which its first byte tells, and from which the character comes back. */
  lemma WidthIsThatOfUtf8(c: char)
    ensures |Utf8(c)| == Utf8Width(c) == WidthByLead(Utf8(c)[0])
    ensures FromUtf8(Utf8(c)) == c as int
  {
    GroupsOfSix(c as int);
  }

  /** The length of a name in bytes. */
  function Utf8Len(s: string): nat {
    if s == "" then 0 else Utf8Width(s[0]) + Utf8Len(s[1..])
  }

  lemma {:induction false} Utf8LenAdds(s: string, t: string)
    ensures Utf8Len(s + t) == Utf8Len(s) + Utf8Len(t)
    ensures |s| <= Utf8Len(s) <= 4 * |s|
  {
    if s == "" {
      assert s + t == t;
    } else {
      assert (s + t)[1..] == s[1..] + t;
      Utf8LenAdds(s[1..], t);
    }
  }

  // ---------------------------------------------------------------- checking a name

  function Checked(name: string): Option<Refusal> {
    if name == "" then Some(Empty)
    else if Utf8Len(name) > MAX_NAME then Some(TooLong)
    else if '\0' in name then Some(NulByte)
    else if '/' in name || '\\' in name then Some(PathSeparator)
    else if exists c :: c in name && IsControl(c) then Some(ControlCharacter)
    else None
  }

  method ValidateFilename(name: string) returns (refusal: Option<Refusal>)
    ensures refusal == Checked(name)
    ensures refusal.None? <==>
              && 0 < |name| && Utf8Len(name) <= MAX_NAME
              && forall i :: 0 <= i < |name| ==> !IsControl(name[i]) && name[i] != '/' && name[i] != '\\'
  {
    if name == "" {
      return Some(Empty);
    }
    if Utf8Len(name) > MAX_NAME {
      return Some(TooLong);
    }
    if '\0' in name {
      return Some(NulByte);
    }
    if '/' in name || '\\' in name {
      return Some(PathSeparator);
    }
    for i := 0 to |name|
      invariant forall k :: 0 <= k < i ==> !IsControl(name[k])
    {
      if IsControl(name[i]) {
        assert name[i] in name;
        return Some(ControlCharacter);
      }
    }
    refusal := None;
  }

  /** Which objection a name meets first. */
  lemma NameObjections(name: string)
    ensures Checked(name) == Some(Empty) <==> |name| == 0
    ensures Checked(name) == Some(TooLong) <==> Utf8Len(name) > MAX_NAME
    ensures Checked(name) == Some(NulByte) <==> 0 < |name| && Utf8Len(name) <= MAX_NAME && '\0' in name
    ensures Checked(name) == Some(PathSeparator) <==>
              0 < |name| && Utf8Len(name) <= MAX_NAME && '\0' !in name && ('/' in name || '\\' in name)
    ensures Checked(name) == Some(ControlCharacter) <==>
              && 0 < |name| && Utf8Len(name) <= MAX_NAME && '\0' !in name && '/' !in name && '\\' !in name
              && exists i :: 0 <= i < |name| && IsControl(name[i])
    ensures Checked(name).Some? ==> Checked(name).value in {Empty, TooLong, NulByte, PathSeparator, ControlCharacter}
  {}

  // ---------------------------------------------------------------- sanitising

  function Replaced(name: string): (r: string)
    ensures |r| == |name|
    ensures forall i :: 0 <= i < |name| ==> r[i] == if Unsafe(name[i]) then '_' else name[i]
  {
    if name == "" then "" else [if Unsafe(name[0]) then '_' else name[0]] + Replaced(name[1..])
  }

  /** A name without its trailing dots and spaces. */
  function TrimEnd(s: string): (r: string)
    ensures r <= s && (r == "" || (r[|r| - 1] != '.' && r[|r| - 1] != ' '))
    ensures forall i :: |r| <= i < |s| ==> s[i] == '.' || s[i] == ' '
  {
    if s != "" && (s[|s| - 1] == '.' || s[|s| - 1] == ' ') then TrimEnd(s[..|s| - 1]) else s
  }

  function Trimmed(name: string): string {
    TrimEnd(Replaced(name))
  }

  function Sanitised(name: string): string {
    var trimmed := Trimmed(name);
    if trimmed == "" then FALLBACK
    else if Checked(trimmed).None? then trimmed
    else trimmed + SUFFIX
  }

  method SanitizeFilename(name: string) returns (r: string)
    ensures r == Sanitised(name)
  {
    var buf: string := "";
    for i := 0 to |name|
      invariant |buf| == i
      invariant forall k :: 0 <= k < i ==> buf[k] == if Unsafe(name[k]) then '_' else name[k]
    {
      buf := buf + [if Unsafe(name[i]) then '_' else name[i]];
    }
    assert buf == Replaced(name);
    var trimmed := TrimEnd(buf);
    if trimmed == "" {
      return FALLBACK;
    }
    var refusal := ValidateFilename(trimmed);
    r := if refusal.None? then trimmed else trimmed + SUFFIX;
  }

  /** Non-empty, without a forbidden character, and not ending in a dot or a space. */
  ghost predicate Clean(s: string) {
    && s != "" && s[|s| - 1] != '.' && s[|s| - 1] != ' '
    && forall i :: 0 <= i < |s| ==> !Unsafe(s[i])
  }

  /** A clean name passes the check exactly when it is short enough. */
  lemma CleanNamesPass(s: string)
    requires Clean(s)
    ensures Checked(s).None? <==> Utf8Len(s) <= MAX_NAME
  {}

  lemma TrimmedIsClean(name: string)
    ensures Trimmed(name) == "" || Clean(Trimmed(name))
  {}

  lemma FallbackIsClean()
    ensures Clean(FALLBACK)
  {}

  lemma FallbackIsShort()
    ensures Utf8Len(FALLBACK) <= MAX_NAME
  {}

  /** Every sanitised name is clean, whatever went in. */
  lemma SanitisedIsClean(name: string)
    ensures Clean(Sanitised(name))
  {
    TrimmedIsClean(name);
    FallbackIsClean();
  }

  /**
   * The promise that a sanitised name is always safe fails for long names: it passes the check exactly when
   * the trimmed name has at most 255 bytes.
   */
  lemma PassesExactlyWhenShort(name: string)
    ensures Checked(Sanitised(name)).None? <==> Utf8Len(Trimmed(name)) <= MAX_NAME
  {
    var trimmed := Trimmed(name);
    TrimmedIsClean(name);
    SanitisedIsClean(name);
    FallbackIsShort();
    CleanNamesPass(Sanitised(name));
    if trimmed != "" {
      CleanNamesPass(trimmed);
      Utf8LenAdds(trimmed, SUFFIX);
    }
  }

  lemma {:induction false} LongName(n: nat)
    ensures Utf8Len(seq(n, i => 'a')) == n && Replaced(seq(n, i => 'a')) == seq(n, i => 'a')
  {
    if n > 0 {
      assert seq(n, i => 'a')[1..] == seq(n - 1, i => 'a');
      LongName(n - 1);
    }
  }

  /** A name of 256 letters is such a long name: what comes out is refused. */
  lemma SafetyPromiseFails()
    ensures Checked(Sanitised(seq(256, i => 'a'))) == Some(TooLong)
  {
    var name := seq(256, i => 'a');
    LongName(256);
    assert Trimmed(name) == name;
    Utf8LenAdds(name, SUFFIX);
  }

  lemma {:induction false} CleanIsKept(s: string)
    requires Clean(s)
    ensures Trimmed(s) == s
  {}

  /** Sanitising leaves a name alone exactly when it is clean and short enough. */
  lemma FixedPoints(name: string)
    ensures Sanitised(name) == name <==> Clean(name) && Utf8Len(name) <= MAX_NAME
  {
    SanitisedIsClean(name);
    if Clean(name) {
      CleanIsKept(name);
      CleanNamesPass(name);
    }
  }

  /** Sanitising twice gives what sanitising once gives, exactly for the names short enough to pass the check. */
  lemma IdempotentExactlyWhenShort(name: string)
    ensures Sanitised(Sanitised(name)) == Sanitised(name) <==> Utf8Len(Trimmed(name)) <= MAX_NAME
  {
    SanitisedIsClean(name);
    CleanNamesPass(Sanitised(name));
    FixedPoints(Sanitised(name));
    PassesExactlyWhenShort(name);
  }

  // ---------------------------------------------------------------- checking a destination

  /** The components a path is split into. */
  datatype Component = Root | CurDir | ParentDir | Normal(name: string)

  type Path = seq<Component>

  predicate HasFileName(path: Path) {
    path != [] && path[|path| - 1].Normal?
  }

  function FileName(path: Path): string
    requires HasFileName(path)
  {
    path[|path| - 1].name
  }

  /** The bytes below 0x20 and 0x7F; every byte of a longer encoding is above them. */
  predicate IsControlByte(c: char) {
    c as int < 0x20 || c as int == 0x7F
  }

  function Upper(c: char): char {
    if 'a' <= c <= 'z' then (c as int - 32) as char else c
  }

  /** The part of a name before its first dot, in capitals. */
  function Stem(name: string): string {
    if name == "" || name[0] == '.' then "" else [Upper(name[0])] + Stem(name[1..])
  }

  predicate Reserved(name: string) {
    var stem := Stem(name);
    || stem in ["CON", "PRN", "AUX", "NUL"]
    || (|stem| == 4 && stem[..3] in ["COM", "LPT"] && '1' <= stem[3] <= '9')
  }

  /** The reserved names: four devices, and nine each of two kinds of port. */
  lemma ReservedAreListed(name: string)
    ensures Reserved(name) <==>
              || Stem(name) in {"CON", "PRN", "AUX", "NUL"}
              || exists d: char :: '1' <= d <= '9' && (Stem(name) == "COM" + [d] || Stem(name) == "LPT" + [d])
  {
    var stem := Stem(name);
    if |stem| == 4 {
      assert stem == stem[..3] + [stem[3]];
    }
    if d: char :| '1' <= d <= '9' && (stem == "COM" + [d] || stem == "LPT" + [d]) {
      assert stem[..3] in ["COM", "LPT"] && stem[3] == d;
    }
  }

  /** The stem ends before the first dot, and is the name up to there with small letters made capital. */
  lemma {:induction false} StemIsCapital(name: string)
    ensures |Stem(name)| <= |name| && '.' !in name[..|Stem(name)|]
    ensures |Stem(name)| < |name| ==> name[|Stem(name)|] == '.'
    ensures forall i :: 0 <= i < |Stem(name)| ==>
              Stem(name)[i] == if 'a' <= name[i] <= 'z' then (name[i] as int - 'a' as int + 'A' as int) as char else name[i]
  {
    if name != "" && name[0] != '.' {
      StemIsCapital(name[1..]);
      assert name[..|Stem(name)|] == [name[0]] + name[1..][..|Stem(name[1..])|];
    }
  }

  predicate NoControlBytes(path: Path) {
    forall i :: 0 <= i < |path| && path[i].Normal? ==> forall k :: 0 <= k < |path[i].name| ==> !IsControlByte(path[i].name[k])
  }

  method RejectControlBytes(name: string) returns (ok: bool)
    ensures ok <==> forall k :: 0 <= k < |name| ==> !IsControlByte(name[k])
  {
    for i := 0 to |name|
      invariant forall k :: 0 <= k < i ==> !IsControlByte(name[k])
    {
      if IsControlByte(name[i]) {
        return false;
      }
    }
    ok := true;
  }

  /** A destination is accepted exactly when nothing in it climbs or hides, and it ends in a usable, unreserved name. */
  predicate Acceptable(path: Path) {
    && ParentDir !in path && NoControlBytes(path)
    && HasFileName(path) && Checked(FileName(path)).None? && !Reserved(FileName(path))
  }

  predicate HasNul(path: Path) {
    exists i :: 0 <= i < |path| && path[i].Normal? && '\0' in path[i].name
  }

  /** What is wrong with a destination: the path as a whole, or its final name. */
  datatype Objection = BadPath(why: Refusal) | BadName(why: Refusal)

  /** The first component that climbs or has a control byte. */
  function BadComponent(path: Path): Option<Refusal> {
    if path == [] then None
    else if path[0].ParentDir? then Some(ParentTraversal)
    else if path[0].Normal? && exists k :: 0 <= k < |path[0].name| && IsControlByte(path[0].name[k]) then Some(ControlCharacter)
    else BadComponent(path[1..])
  }

  /** The first thing wrong with a destination, in the order of the checks. */
  function FirstObjection(path: Path): Option<Objection> {
    if path == [] then Some(BadPath(Empty))
    else if HasNul(path) then Some(BadPath(NulByte))
    else if BadComponent(path).Some? then Some(BadPath(BadComponent(path).value))
    else if forall i :: 0 <= i < |path| ==> !path[i].Normal? then Some(BadPath(Empty))
    else if !HasFileName(path) then Some(BadName(NoFileName))
    else if Checked(FileName(path)).Some? then Some(BadName(Checked(FileName(path)).value))
    else if Reserved(FileName(path)) then Some(BadName(ReservedName))
    else None
  }

  lemma {:induction false} NoBadComponent(path: Path)
    ensures BadComponent(path).None? <==> ParentDir !in path && NoControlBytes(path)
  {
    if path != [] {
      NoBadComponent(path[1..]);
      assert path == [path[0]] + path[1..];
      assert NoControlBytes(path) <==> NoControlBytes([path[0]]) && NoControlBytes(path[1..]) by {
        assert forall i :: 0 < i < |path| ==> path[i] == path[1..][i - 1];
      }
    }
  }

  lemma NoObjection(path: Path)
    ensures FirstObjection(path).None? <==> Acceptable(path)
  {
    NoBadComponent(path);
    if HasNul(path) {
      NulIsControl(path);
    }
  }

  lemma NulIsControl(path: Path)
    requires HasNul(path)
    ensures !NoControlBytes(path)
  {
    var i :| 0 <= i < |path| && path[i].Normal? && '\0' in path[i].name;
    var k :| 0 <= k < |path[i].name| && path[i].name[k] == '\0';
    assert IsControlByte(path[i].name[k]);
  }

  /** Component `i` climbs or has a control byte. */
  predicate Bad(path: Path, i: nat) {
    i < |path| && (path[i].ParentDir? || (path[i].Normal? && exists k :: 0 <= k < |path[i].name| && IsControlByte(path[i].name[k])))
  }

  predicate FirstBad(path: Path, i: nat) {
    Bad(path, i) && forall j :: 0 <= j < i ==> !Bad(path, j)
  }

  /** The bad component reported is the first one. */
  lemma {:induction false} BadComponentIsFirst(path: Path, i: nat)
    requires FirstBad(path, i)
    ensures BadComponent(path) == Some(if path[i].ParentDir? then ParentTraversal else ControlCharacter)
  {
    if i > 0 {
      assert !Bad(path, 0);
      assert forall j :: 0 <= j < |path| - 1 ==> (Bad(path[1..], j) <==> Bad(path, j + 1));
      BadComponentIsFirst(path[1..], i - 1);
    }
  }

  /** Which objection a destination meets first: the path as a whole comes before its name. */
  lemma PathObjections(path: Path, i: nat)
    ensures HasNul(path) ==> FirstObjection(path) == Some(BadPath(NulByte))
    ensures !HasNul(path) && FirstBad(path, i) ==>
              FirstObjection(path) == Some(BadPath(if path[i].ParentDir? then ParentTraversal else ControlCharacter))
    ensures ParentDir !in path && NoControlBytes(path) ==>
              var named := exists j :: 0 <= j < |path| && path[j].Normal?;
              && (!named ==> FirstObjection(path) == Some(BadPath(Empty)))
              && (named && !HasFileName(path) ==> FirstObjection(path) == Some(BadName(NoFileName)))
              && (HasFileName(path) && Checked(FileName(path)).Some? ==>
                    FirstObjection(path) == Some(BadName(Checked(FileName(path)).value)))
              && (HasFileName(path) && Checked(FileName(path)).None? && Reserved(FileName(path)) ==>
                    FirstObjection(path) == Some(BadName(ReservedName)))
  {
    NoBadComponent(path);
    if HasNul(path) {
      NulIsControl(path);
    } else if FirstBad(path, i) {
      BadComponentIsFirst(path, i);
    }
  }

  method ValidateOutputPath(path: Path) returns (objection: Option<Objection>)
    ensures objection == FirstObjection(path)
    ensures objection.None? <==> Acceptable(path)
  {
    NoObjection(path);
    if path == [] {
      return Some(BadPath(Empty));
    }
    if HasNul(path) {
      return Some(BadPath(NulByte));
    }
    var sawNormal := false;
    assert path[0..] == path;
    for i := 0 to |path|
      invariant BadComponent(path) == BadComponent(path[i..])
      invariant sawNormal <==> exists k :: 0 <= k < i && path[k].Normal?
    {
      assert path[i..][0] == path[i] && path[i..][1..] == path[i + 1..];
      match path[i]
      case Root =>
      case CurDir =>
      case ParentDir =>
        return Some(BadPath(ParentTraversal));
      case Normal(name) =>
        sawNormal := true;
        var ok := RejectControlBytes(name);
        if !ok {
          return Some(BadPath(ControlCharacter));
        }
    }
    if !sawNormal {
      return Some(BadPath(Empty));
    }
    if !HasFileName(path) {
      return Some(BadName(NoFileName));
    }
    var refusal := ValidateFilename(FileName(path));
    if refusal.Some? {
      return Some(BadName(refusal.value));
    }
    objection := if Reserved(FileName(path)) then Some(BadName(ReservedName)) else None;
  }
}

/**
 * Hosts-file parsing: one line into a `(name, ip)` entry, and the loaders that
 * turn a file's contents into the ordered entry lists the local record index
 * is built from.
 */
module Domain {

  import opened Wrappers
  import opened Dns
  import opened Seqs
  import opened Text

  datatype DomainEntry = DomainEntry(name: string, ip: IpAddr)

  /** `str::parse::<IpAddr>`, the standard library's address parser, supplied by the caller. */
  type IpParser = string -> Option<IpAddr>

  datatype IoError = IoError(message: string)

  /** `tokio::fs::read_to_string`, supplied by the caller. */
  type FileReader = string -> Result<string, IoError>

  predicate EndsWithDot(n: string)
  {
    n != [] && n[|n| - 1] == '.'
  }

  /**
   * A name made fully qualified: `n` with a `.` appended unless it already
   * ends with one. The result is `n` followed by at most one character.
   */
  function NormalizeName(n: string): (r: string)
    ensures EndsWithDot(r)
    ensures |n| <= |r| <= |n| + 1 && r[..|n|] == n
    ensures EndsWithDot(n) ==> r == n
    ensures forall c :: c in r ==> c in n || c == '.'
  {
    if EndsWithDot(n) then n else n + "."
  }

  /** A line with its tabs made spaces and its surrounding whitespace trimmed. */
  function Cleaned(line: string): (r: string)
    ensures |r| <= |line| && '\t' !in r
    ensures r != [] ==> !IsWhitespace(r[0]) && !IsWhitespace(r[|r| - 1])
  {
    Trim(ReplaceTabs(line))
  }

  /**
   * One hosts-file line: blank lines and `#` comments give nothing; otherwise
   * the first two space-separated fields are the address and the name, and
   * the line is dropped unless the first parses as an address.
   */
  function ParseLine(line: string, parseIp: IpParser): (r: Option<DomainEntry>)
    ensures r.Some? ==> EndsWithDot(r.value.name) && ' ' !in r.value.name
    ensures r.Some? ==> var c := Cleaned(line); c != [] && c[0] != '#'
  {
    var line := Cleaned(line);
    if line == [] || line[0] == '#' then None
    else
      var items := Fields(line);
      if |items| < 1 then None
      else if |items| < 2 then None
      else match parseIp(items[0])
        case Some(ip) => Some(DomainEntry(NormalizeName(items[1]), ip))
        case None => None
  }

  /** The entries of a file's contents: the successful parses of its `"\n"`-separated lines, in order. */
  function HostEntries(content: string, parseIp: IpParser): (r: seq<DomainEntry>)
    ensures forall e :: e in r ==> EndsWithDot(e.name)
  {
    Flatten(MapSeq(line => ParseLine(line, parseIp), Split(content, '\n')))
  }

  /** `load_host_file`: no path gives no entries; a file that cannot be read is an error. */
  function LoadHostFile(p: Option<string>, readFile: FileReader, parseIp: IpParser)
    : (r: Result<seq<DomainEntry>, IoError>)
    ensures p.None? ==> r == Ok([])
    ensures p.Some? ==> (r.Err? <==> readFile(p.value).Err?)
    ensures p.Some? && readFile(p.value).Ok? ==> r == Ok(HostEntries(readFile(p.value).value, parseIp))
    ensures p.Some? && readFile(p.value).Err? ==> r == Err(readFile(p.value).error)
    ensures r.Ok? ==> forall e :: e in r.value ==> EndsWithDot(e.name)
  {
    match p
    case None => Ok([])
    case Some(path) =>
      match readFile(path)
      case Err(e) => Err(e)
      case Ok(content) => Ok(HostEntries(content, parseIp))
  }

  /**
   * A sinkhole entry maps its name to `0.0.0.0`. Of all addresses only the
   * unspecified IPv4 address is displayed as the text "0.0.0.0"; IPv6
   * addresses are displayed in colon notation.
   */
  predicate IsSinkhole(e: DomainEntry)
  {
    e.ip == V4(Ipv4(0, 0, 0, 0))
  }

  /** `load_domain_list`: the sinkhole entries of the file, in file order. */
  function LoadDomainList(p: Option<string>, readFile: FileReader, parseIp: IpParser)
    : (r: Result<seq<DomainEntry>, IoError>)
    ensures r.Err? <==> LoadHostFile(p, readFile, parseIp).Err?
    ensures r.Err? ==> r.error == LoadHostFile(p, readFile, parseIp).error
    ensures r.Ok? ==>
              var all := LoadHostFile(p, readFile, parseIp).value;
              && IsSubsequence(r.value, all)
              && (forall e :: e in all ==> (e in r.value <==> IsSinkhole(e)))
              && (forall e :: multiset(r.value)[e] == if IsSinkhole(e) then multiset(all)[e] else 0)
    ensures r.Ok? ==> r.value == Filter(IsSinkhole, LoadHostFile(p, readFile, parseIp).value)
  {
    match LoadHostFile(p, readFile, parseIp)
    case Err(e) => Err(e)
    case Ok(out) =>
      FilterMultiset(IsSinkhole, out);
      Ok(Filter(IsSinkhole, out))
  }

  /** `load_host_list`: every entry of the file. */
  function LoadHostList(p: Option<string>, readFile: FileReader, parseIp: IpParser)
    : (r: Result<seq<DomainEntry>, IoError>)
    ensures p.None? ==> r == Ok([])
    ensures p.Some? ==> (r.Err? <==> readFile(p.value).Err?)
    ensures p.Some? && readFile(p.value).Ok? ==> r == Ok(HostEntries(readFile(p.value).value, parseIp))
    ensures p.Some? && readFile(p.value).Err? ==> r == Err(readFile(p.value).error)
    ensures r.Ok? ==> forall e :: e in r.value ==> EndsWithDot(e.name)
  {
    LoadHostFile(p, readFile, parseIp)
  }

  /** When a line is accepted, and the three ways it is rejected. */
  lemma ParseLineOutcome(line: string, parseIp: IpParser)
    ensures var c := Cleaned(line);
            c == [] || c[0] == '#' ==> ParseLine(line, parseIp) == None
    ensures var c := Cleaned(line);
            c != [] && c[0] != '#' && |Fields(c)| < 2 ==> ParseLine(line, parseIp) == None
    ensures var f := Fields(Cleaned(line));
            |f| >= 2 && parseIp(f[0]).None? ==> ParseLine(line, parseIp) == None
    ensures var c := Cleaned(line); var f := Fields(c);
            c != [] && c[0] != '#' && |f| >= 2 && parseIp(f[0]).Some? ==>
              ParseLine(line, parseIp) == Some(DomainEntry(NormalizeName(f[1]), parseIp(f[0]).value))
  {
  }

  /** Normalising a name twice is normalising it once. */
  lemma NormalizeNameIdempotent(n: string)
    ensures NormalizeName(NormalizeName(n)) == NormalizeName(n)
  {
  }

  predicate IsBlank(c: char)
  {
    c == ' ' || c == '\t'
  }

  /** Tabs and spaces are interchangeable: lines that differ only in which blank they use parse alike. */
  lemma TabsAreSpaces(l1: string, l2: string, parseIp: IpParser)
    requires |l1| == |l2|
    requires forall i :: 0 <= i < |l1| ==> l1[i] == l2[i] || (IsBlank(l1[i]) && IsBlank(l2[i]))
    ensures ParseLine(l1, parseIp) == ParseLine(l2, parseIp)
  {
    assert ReplaceTabs(l1) == ReplaceTabs(l2);
  }

  /** A non-empty string without whitespace. */
  predicate IsWord(w: string)
  {
    w != [] && forall c :: c in w ==> !IsWhitespace(c)
  }

  /**
   * A well-formed hosts line `<address> <name>`, optionally followed by more
   * fields (aliases, a comment), gives the address and the normalised name;
   * the fields after the second play no part.
   */
  lemma ParseHostsLine(ipText: string, name: string, tail: string, parseIp: IpParser)
    requires IsWord(ipText) && ipText[0] != '#'
    requires IsWord(name)
    requires tail == [] || (tail[0] == ' ' && '\t' !in tail && !IsWhitespace(tail[|tail| - 1]))
    ensures ParseLine(ipText + " " + name + tail, parseIp) ==
              match parseIp(ipText)
              case Some(ip) => Some(DomainEntry(NormalizeName(name), ip))
              case None => None
  {
    var line := ipText + " " + name + tail;
    HostsLineIsClean(ipText, name, tail);
    HostsLineFields(ipText, name, tail);
    var c := Cleaned(line);
    assert c != [] && c[0] == ipText[0];
    var f := Fields(c);
    assert f[0] == ipText && f[1] == name;
    ParseLineOutcome(line, parseIp);
  }

  /** A hosts line built from words and a tab-free tail is left as it is by the clean-up. */
  lemma HostsLineIsClean(ipText: string, name: string, tail: string)
    requires IsWord(ipText) && IsWord(name)
    requires tail == [] || (tail[0] == ' ' && '\t' !in tail && !IsWhitespace(tail[|tail| - 1]))
    ensures Cleaned(ipText + " " + name + tail) == ipText + " " + name + tail
  {
    var line := ipText + " " + name + tail;
    assert '\t' !in line by {
      assert forall c :: c in line ==> c in ipText || c == ' ' || c in name || c in tail;
    }
    assert ReplaceTabs(line) == line;
    TrimUnpadded(line);
  }

  /** The first two fields of such a line are the address text and the name. */
  lemma HostsLineFields(ipText: string, name: string, tail: string)
    requires IsWord(ipText) && IsWord(name)
    requires tail == [] || tail[0] == ' '
    ensures var f := Fields(ipText + " " + name + tail);
            |f| >= 2 && f[0] == ipText && f[1] == name
  {
    var head := ipText + " " + name;
    FieldsOfWord(ipText);
    FieldsOfWord(name);
    FieldsAtSpace(ipText, name);
    assert Fields(head) == [ipText, name];
    if tail != [] {
      var rest := tail[1..];
      assert tail == " " + rest;
      assert head + tail == head + " " + rest;
      FieldsAtSpace(head, rest);
    } else {
      assert head + tail == head;
    }
  }

  /** A file made of one line has that line's entry, if any. */
  lemma HostEntriesOfLine(line: string, parseIp: IpParser)
    requires '\n' !in line
    ensures HostEntries(line, parseIp) == match ParseLine(line, parseIp)
                                          case Some(e) => [e]
                                          case None => []
  {
    SplitWithoutSeparator(line, '\n');
  }

  /** Joining two files with a newline concatenates their entry lists. */
  lemma HostEntriesOfJoin(a: string, b: string, parseIp: IpParser)
    ensures HostEntries(a + "\n" + b, parseIp) == HostEntries(a, parseIp) + HostEntries(b, parseIp)
  {
    var f := line => ParseLine(line, parseIp);
    SplitAtSeparator(a, '\n', b);
    MapSeqConcat(f, Split(a, '\n'), Split(b, '\n'));
    FlattenConcat(MapSeq(f, Split(a, '\n')), MapSeq(f, Split(b, '\n')));
  }
}

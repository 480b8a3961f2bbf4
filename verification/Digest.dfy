/** The byte stream a directory digest hashes: its printer, a parser that undoes it, and
    what two equal streams mean. A character stands for one byte. */
module Digests {
  import opened Outcome
  import opened Order
  import Ranks

  type Bytes = string

  const NUL: char := 0 as char
  const SUM_SIZE: nat := 32

  // file mode bits: nine permission bits, and type bits from 1 << 19 up
  const PERM_LIMIT: nat := 0x200
  const MODE_SYMLINK: nat := 0x800_0000
  const MODE_DIR: nat := 0x8000_0000
  const MODE_LIMIT: nat := 0x1_0000_0000
  const LOWEST_TYPE_BIT: nat := 0x8_0000

  /** What the walk of a tree finds at one path. */
  datatype Found =
    | Directory(path: Bytes, perm: nat)
    | Symlink(path: Bytes, target: Bytes)
    | Irregular(path: Bytes, typeBits: nat)
    | Regular(path: Bytes, perm: nat, sum: Bytes)

  datatype Entry = Entry(rel: Bytes, mode: nat, sum: Bytes, link: Bytes)

  function EntryOf(f: Found): Entry {
    match f
    case Directory(path, perm) => Entry(path + "/", perm + MODE_DIR, [], [])
    case Symlink(path, target) => Entry(path, MODE_SYMLINK, [], target)
    case Irregular(path, bits) => Entry(path, bits, [], [])
    case Regular(path, perm, sum) => Entry(path, perm, sum, [])
  }

  /** What an operating system can report: no path or link holds a NUL, no path ends in
      a slash, and a type that is none of the others has its own type bits. */
  predicate Possible(f: Found) {
    && NUL !in f.path && f.path != [] && f.path[|f.path| - 1] != '/'
    && match f
       case Directory(_, perm) => perm < PERM_LIMIT
       case Symlink(_, target) => NUL !in target
       case Irregular(_, bits) => LOWEST_TYPE_BIT <= bits < MODE_LIMIT && bits != MODE_SYMLINK && bits < MODE_DIR
       case Regular(_, perm, sum) => perm < PERM_LIMIT && |sum| == SUM_SIZE
  }

  predicate Earlier(a: Entry, b: Entry) {
    Less(a.rel, b.rel)
  }

  // ---------- printing ----------

  function Digit(d: nat): char
    requires d < 8
  {
    ('0' as int + d) as char
  }

  function Octal(n: nat): (s: Bytes)
    ensures s != [] && forall i :: 0 <= i < |s| ==> '0' <= s[i] <= '7'
  {
    if n < 8 then [Digit(n)] else Octal(n / 8) + [Digit(n % 8)]
  }

  function Print(e: Entry): Bytes {
    e.rel + [NUL] + Octal(e.mode) + [NUL] + e.link + [NUL] + e.sum + [NUL]
  }

  function Stream(entries: seq<Entry>): Bytes {
    if entries == [] then [] else Print(entries[0]) + Stream(entries[1..])
  }

  // ---------- parsing ----------

  /** The bytes before the first NUL, and those after it. */
  function Field(s: Bytes): (r: Option<(Bytes, Bytes)>)
    ensures r.Some? ==> |r.value.1| < |s|
  {
    if s == [] then None
    else if s[0] == NUL then Some(([], s[1..]))
    else
      match Field(s[1..])
      case None => None
      case Some((field, rest)) => Some(([s[0]] + field, rest))
  }

  function FromOctal(s: Bytes): Option<nat> {
    if s == [] then Some(0)
    else
      var last := s[|s| - 1];
      match FromOctal(s[..|s| - 1])
      case Some(n) => if '0' <= last <= '7' then Some(8 * n + (last as int - '0' as int)) else None
      case None => None
  }

  /** The raw sum follows only a mode without type bits. */
  function SumSize(mode: nat): nat {
    if mode < PERM_LIMIT then SUM_SIZE else 0
  }

  function ParseOne(s: Bytes): (r: Option<(Entry, Bytes)>)
    ensures r.Some? ==> |r.value.1| < |s|
  {
    match Field(s)
    case None => None
    case Some((rel, s1)) =>
      match Field(s1)
      case None => None
      case Some((digits, s2)) =>
        match Field(s2)
        case None => None
        case Some((link, s3)) =>
          match FromOctal(digits)
          case None => None
          case Some(mode) =>
            var k := SumSize(mode);
            if |s3| <= k || s3[k] != NUL then None
            else Some((Entry(rel, mode, s3[..k], link), s3[k + 1..]))
  }

  function Parse(s: Bytes): Option<seq<Entry>>
    decreases |s|
  {
    if s == [] then Some([])
    else
      match ParseOne(s)
      case None => None
      case Some((e, rest)) =>
        match Parse(rest)
        case None => None
        case Some(more) => Some([e] + more)
  }

  // ---------- the round trip ----------

  predicate Printable(e: Entry) {
    NUL !in e.rel && NUL !in e.link && |e.sum| == SumSize(e.mode)
  }

  lemma {:induction false} FieldUndoes(field: Bytes, rest: Bytes)
    requires NUL !in field
    ensures Field(field + [NUL] + rest) == Some((field, rest))
  {
    var s := field + [NUL] + rest;
    if field == [] {
      assert s[1..] == rest;
    } else {
      FieldUndoes(field[1..], rest);
      assert s[1..] == field[1..] + [NUL] + rest;
      assert field == [field[0]] + field[1..];
    }
  }

  lemma {:induction false} OctalUndoes(n: nat)
    ensures FromOctal(Octal(n)) == Some(n)
  {
    if n >= 8 {
      OctalUndoes(n / 8);
      assert Octal(n)[..|Octal(n)| - 1] == Octal(n / 8);
    } else {
      assert Octal(n)[..0] == [];
    }
  }

  lemma ParseOneUndoes(e: Entry, rest: Bytes)
    requires Printable(e)
    ensures ParseOne(Print(e) + rest) == Some((e, rest))
  {
    var s3 := e.sum + [NUL] + rest;
    var s2 := e.link + [NUL] + s3;
    var s1 := Octal(e.mode) + [NUL] + s2;
    assert Print(e) + rest == e.rel + [NUL] + s1;
    FieldUndoes(e.rel, s1);
    assert NUL !in Octal(e.mode);
    FieldUndoes(Octal(e.mode), s2);
    FieldUndoes(e.link, s3);
    OctalUndoes(e.mode);
    var k := SumSize(e.mode);
    assert s3[..k] == e.sum && s3[k + 1..] == rest && s3[k] == NUL;
  }

  /** Parsing a stream gives back its entries, whatever bytes the sums hold. */
  lemma {:induction false} ParseUndoesStream(entries: seq<Entry>)
    requires forall e :: e in entries ==> Printable(e)
    ensures Parse(Stream(entries)) == Some(entries)
  {
    if entries != [] {
      hide Print, ParseOne, Parse, Printable, Octal;
      assert entries[0] in entries && forall e :: e in entries[1..] ==> e in entries;
      ParseUndoesStream(entries[1..]);
      ParseOneUndoes(entries[0], Stream(entries[1..]));
      ParseMore(Stream(entries), entries[0], Stream(entries[1..]), entries[1..]);
      assert entries == [entries[0]] + entries[1..];
    } else {
      hide ParseOne;
    }
  }

  lemma ParseMore(s: Bytes, e: Entry, rest: Bytes, more: seq<Entry>)
    requires ParseOne(s) == Some((e, rest)) && Parse(rest) == Some(more)
    ensures Parse(s) == Some([e] + more)
  {
    hide ParseOne;
    assert s != [] by { NothingToParse(); }
  }

  lemma NothingToParse()
    ensures ParseOne([]) == None
  {
  }

  // ---------- the digest ----------

  function Entries(walk: seq<Found>): seq<Entry> {
    if walk == [] then [] else Entries(walk[..|walk| - 1]) + [EntryOf(walk[|walk| - 1])]
  }

  /** A walk that met every path once. */
  ghost predicate IsWalk(walk: seq<Found>) {
    && NoRepeats(walk) && (forall f :: f in walk ==> Possible(f))
    && forall f, g :: f in walk && g in walk && f.path == g.path ==> f == g
  }

  function Input(walk: seq<Found>): Bytes {
    Stream(Sort(Entries(walk), Earlier))
  }

  method CollectEntries(found: seq<Found>) returns (entries: seq<Entry>)
    ensures entries == Entries(found)
  {
    entries := [];
    for i := 0 to |found|
      invariant entries == Entries(found[..i])
    {
      assert found[..i + 1][..i] == found[..i];
      match found[i]
      case Directory(path, perm) => entries := entries + [Entry(path + "/", perm + MODE_DIR, [], [])];
      case Symlink(path, target) => entries := entries + [Entry(path, MODE_SYMLINK, [], target)];
      case Irregular(path, bits) => entries := entries + [Entry(path, bits, [], [])];
      case Regular(path, perm, sum) => entries := entries + [Entry(path, perm, sum, [])];
    }
    assert found[..|found|] == found;
  }

  lemma StreamStep(written: Bytes, entries: seq<Entry>, i: nat)
    requires i < |entries|
    ensures written + Stream(entries[i..]) == written + Print(entries[i]) + Stream(entries[i + 1..])
  {
    assert entries[i..][1..] == entries[i + 1..];
  }

  /** The bytes handed to the hash, in three writes an entry. */
  method WriteEntries(entries: seq<Entry>) returns (written: Bytes)
    ensures written == Stream(entries)
  {
    hide Stream, Octal;
    written := [];
    assert entries[0..] == entries && written + Stream(entries) == Stream(entries);
    for i := 0 to |entries|
      invariant written + Stream(entries[i..]) == Stream(entries)
    {
      var e := entries[i];
      ghost var before := written;
      StreamStep(written, entries, i);
      written := written + (e.rel + [NUL] + Octal(e.mode) + [NUL] + e.link + [NUL]);
      written := written + e.sum;
      written := written + [NUL];
      assert written == before + Print(e);
    }
    NothingLeft(entries[|entries|..]);
  }

  lemma NothingLeft(entries: seq<Entry>)
    requires entries == []
    ensures Stream(entries) == []
  {
  }

  /** hash stands for SHA-256 written in hexadecimal. */
  method DigestDir(walk: Result<seq<Found>, string>, hash: Bytes -> string) returns (r: Result<string, string>)
    ensures r == match walk
                 case Ok(found) => Ok("sha256:" + hash(Input(found)))
                 case Err(error) => Err("digest: " + error)
  {
    if walk.Err? {
      return Err("digest: " + walk.error);
    }
    var entries := CollectEntries(walk.value);
    entries := Sort(entries, Earlier);
    var written := WriteEntries(entries);
    r := Ok("sha256:" + hash(written));
  }

  lemma EarlierIsOrder()
    ensures IsOrder(Earlier)
  {
    LessIsOrder();
  }

  lemma PossibleIsPrintable(f: Found)
    requires Possible(f)
    ensures Printable(EntryOf(f))
  {
  }

  /** An entry tells what was found: kinds cannot be mistaken for one another. */
  lemma EntryTellsFound(f: Found, g: Found)
    requires Possible(f) && Possible(g)
    ensures EntryOf(f) == EntryOf(g) ==> f == g
    ensures EntryOf(f).rel == EntryOf(g).rel ==> f.path == g.path
  {
    assert (f.path + "/")[..|f.path|] == f.path && (g.path + "/")[..|g.path|] == g.path;
    assert (f.path + "/")[|f.path|] == '/' && (g.path + "/")[|g.path|] == '/';
  }

  lemma {:induction false} EntriesHold(walk: seq<Found>, e: Entry)
    ensures e in Entries(walk) <==> exists f :: f in walk && EntryOf(f) == e
  {
    if walk != [] {
      var before, last := walk[..|walk| - 1], walk[|walk| - 1];
      EntriesHold(before, e);
      assert forall f :: f in walk <==> f in before || f == last;
    }
  }

  lemma {:induction false} EntriesDoNotRepeat(walk: seq<Found>)
    requires IsWalk(walk)
    ensures NoRepeats(Entries(walk))
  {
    if walk != [] {
      var before, last := walk[..|walk| - 1], walk[|walk| - 1];
      assert walk == before + [last];
      AllButLast(before, last);
      EntriesDoNotRepeat(before);
      EntriesHold(before, EntryOf(last));
      forall f | f in before ensures EntryOf(f) != EntryOf(last) {
        EntryTellsFound(f, last);
      }
      NoRepeatsAppend(Entries(before), EntryOf(last));
    }
  }

  lemma WalkDecides(walk: seq<Found>)
    requires IsWalk(walk)
    ensures Decides(Earlier, Entries(walk))
    ensures forall e :: e in Entries(walk) ==> Printable(e)
  {
    forall e | e in Entries(walk) ensures Printable(e) {
      EntriesHold(walk, e);
      var f :| f in walk && EntryOf(f) == e;
      PossibleIsPrintable(f);
    }
    forall a, b | a in Entries(walk) && b in Entries(walk) && a != b ensures Earlier(a, b) || Earlier(b, a) {
      EntriesHold(walk, a);
      EntriesHold(walk, b);
      var f :| f in walk && EntryOf(f) == a;
      var g :| g in walk && EntryOf(g) == b;
      EntryTellsFound(f, g);
      LessIsTotal(a.rel, b.rel);
    }
  }

  lemma SameEntries(walk: seq<Found>, other: seq<Found>)
    requires IsWalk(walk) && IsWalk(other) && forall f :: f in walk <==> f in other
    ensures multiset(Entries(walk)) == multiset(Entries(other))
  {
    EntriesDoNotRepeat(walk);
    EntriesDoNotRepeat(other);
    forall e ensures e in Entries(walk) <==> e in Entries(other) {
      EntriesHold(walk, e);
      EntriesHold(other, e);
    }
    SameSetSameMultiset(Entries(walk), Entries(other));
  }

  /** Two trees hash the same bytes exactly if they hold the same paths with the same
      modes, links and sums, whatever order either was walked in. */
  lemma SameInputSameTree(walk: seq<Found>, other: seq<Found>)
    requires IsWalk(walk) && IsWalk(other)
    ensures Input(walk) == Input(other) <==> forall f :: f in walk <==> f in other
  {
    if forall f :: f in walk <==> f in other {
      SameEntries(walk, other);
      WalkDecides(walk);
      EarlierIsOrder();
      SortIsCanonical(Entries(walk), Entries(other), Earlier);
    }
    if Input(walk) == Input(other) {
      SortedEntries(walk);
      SortedEntries(other);
      ParseUndoesStream(Sort(Entries(walk), Earlier));
      ParseUndoesStream(Sort(Entries(other), Earlier));
      forall f ensures f in walk <==> f in other {
        FoundInBoth(walk, other, f);
        FoundInBoth(other, walk, f);
      }
    }
  }

  lemma SortedEntries(walk: seq<Found>)
    requires IsWalk(walk)
    ensures forall e :: e in Sort(Entries(walk), Earlier) <==> e in Entries(walk)
    ensures forall e :: e in Sort(Entries(walk), Earlier) ==> Printable(e)
  {
    EarlierIsOrder();
    SortSorts(Entries(walk), Earlier);
    SameElements(Entries(walk), Sort(Entries(walk), Earlier));
    WalkDecides(walk);
  }

  lemma FoundInBoth(walk: seq<Found>, other: seq<Found>, f: Found)
    requires IsWalk(walk) && IsWalk(other) && forall e :: e in Entries(walk) <==> e in Entries(other)
    ensures f in walk ==> f in other
  {
    if f in walk {
      EntriesHold(walk, EntryOf(f));
      EntriesHold(other, EntryOf(f));
      var g :| g in other && EntryOf(g) == EntryOf(f);
      EntryTellsFound(f, g);
    }
  }

  /** The stream lists every entry of the tree once, by its path, byte by byte. */
  lemma StreamInOrder(walk: seq<Found>) returns (entries: seq<Entry>)
    requires IsWalk(walk)
    ensures Parse(Input(walk)) == Some(entries) && multiset(entries) == multiset(Entries(walk))
    ensures forall i, j :: 0 <= i < j < |entries| ==> Less(entries[i].rel, entries[j].rel)
  {
    entries := Sort(Entries(walk), Earlier);
    SortedEntries(walk);
    ParseUndoesStream(entries);
    EarlierIsOrder();
    SortSorts(Entries(walk), Earlier);
    WalkDecides(walk);
    EntriesDoNotRepeat(walk);
    Rearranged(Entries(walk), entries);
    forall i, j | 0 <= i < j < |entries| ensures Less(entries[i].rel, entries[j].rel) {
      SortedThroughout(entries, Earlier, i, j);
      Ranks.Apart(entries, i, j);
      assert entries[i] in entries && entries[j] in entries;
    }
  }

  /** The bytes of one entry: path, mode in octal, link and raw sum, each closed by a NUL;
      a directory's path ends in a slash, and its mode and a link's carry their type. */
  lemma PrintedForm(path: Bytes, target: Bytes, sum: Bytes)
    ensures Print(EntryOf(Directory(path, 493))) == path + "/" + [NUL] + "20000000755" + [NUL] + [NUL] + [NUL]
    ensures Print(EntryOf(Symlink(path, target))) == path + [NUL] + "1000000000" + [NUL] + target + [NUL] + [NUL]
    ensures Print(EntryOf(Regular(path, 420, sum))) == path + [NUL] + "644" + [NUL] + [NUL] + sum + [NUL]
    ensures Print(EntryOf(Irregular(path, 0x200_0000))) == path + [NUL] + "200000000" + [NUL] + [NUL] + [NUL]
    ensures NUL == '\0'
  {
    hide Octal;
    DirectoryMode();
    LinkMode();
    OtherMode();
    PlainMode();
  }

  lemma OctalNext(n: nat, d: nat)
    requires n > 0 && d < 8
    ensures Octal(8 * n + d) == Octal(n) + [Digit(d)]
  {
  }

  lemma ThreeMore(n: nat, a: nat, b: nat, c: nat)
    requires n > 0 && a < 8 && b < 8 && c < 8
    ensures Octal(512 * n + 64 * a + 8 * b + c) == Octal(n) + [Digit(a), Digit(b), Digit(c)]
  {
    hide Octal;
    OctalNext(n, a);
    OctalNext(8 * n + a, b);
    OctalNext(64 * n + 8 * a + b, c);
  }

  lemma DirectoryMode()
    ensures Octal(493 + MODE_DIR) == "20000000755"
  {
    hide Octal, Digit;
    OneDigit(2);
    Digits();
    OctalNext(2, 0);
    ThreeMore(16, 0, 0, 0);
    assert Octal(8192) == "20000";
    ThreeMore(8192, 0, 0, 0);
    assert Octal(4194304) == "20000000";
    ThreeMore(4194304, 7, 5, 5);
  }

  lemma LinkMode()
    ensures Octal(MODE_SYMLINK) == "1000000000"
  {
    hide Octal, Digit;
    OneDigit(1);
    Digits();
    ThreeMore(1, 0, 0, 0);
    assert Octal(512) == "1000";
    ThreeMore(512, 0, 0, 0);
    assert Octal(262144) == "1000000";
    ThreeMore(262144, 0, 0, 0);
  }

  lemma OtherMode()
    ensures Octal(0x200_0000) == "200000000"
  {
    hide Octal, Digit;
    OneDigit(2);
    Digits();
    OctalNext(2, 0);
    OctalNext(16, 0);
    ThreeMore(128, 0, 0, 0);
    assert Octal(65536) == "200000";
    ThreeMore(65536, 0, 0, 0);
  }

  lemma PlainMode()
    ensures Octal(420) == "644"
  {
    hide Octal, Digit;
    OneDigit(6);
    Digits();
    OctalNext(6, 4);
    OctalNext(52, 4);
  }

  lemma Digits()
    ensures Digit(0) == '0' && Digit(1) == '1' && Digit(2) == '2' && Digit(4) == '4'
    ensures Digit(5) == '5' && Digit(6) == '6' && Digit(7) == '7'
  {
  }

  lemma OneDigit(d: nat)
    requires d < 8
    ensures Octal(d) == [Digit(d)]
  {
  }

  // ---------- the boundary check ----------

  /** A file with its content's sum, and whether it is empty. */
  datatype File = File(path: Bytes, sum: Bytes, empty: bool)

  function HiddenSums(hidden: seq<File>): set<Bytes> {
    set f | f in hidden && !f.empty :: f.sum
  }

  function Leaks(hidden: seq<File>, workspace: seq<File>): seq<Bytes> {
    if workspace == [] then []
    else
      var last := workspace[|workspace| - 1];
      Leaks(hidden, workspace[..|workspace| - 1]) + if last.sum in HiddenSums(hidden) then [last.path] else []
  }

  /** The workspace files whose content is that of a hidden file with any content at all.
      The workspace is only walked when there is something hidden to look for. */
  method VerifyBoundary(hiddenWalk: Result<seq<File>, string>, workspaceWalk: Result<seq<File>, string>)
    returns (r: Result<seq<Bytes>, string>)
    ensures hiddenWalk.Err? ==> r.Err?
    ensures hiddenWalk.Ok? && HiddenSums(hiddenWalk.value) == {} ==> r == Ok([])
    ensures hiddenWalk.Ok? && HiddenSums(hiddenWalk.value) != {} && workspaceWalk.Err? ==> r.Err?
    ensures hiddenWalk.Ok? && workspaceWalk.Ok? ==> r == Ok(Sort(Leaks(hiddenWalk.value, workspaceWalk.value), Less))
  {
    if hiddenWalk.Err? {
      return Err("read hidden material: " + hiddenWalk.error);
    }
    var hidden := hiddenWalk.value;
    var sums: map<Bytes, Bytes> := map[];
    for i := 0 to |hidden|
      invariant sums.Keys == HiddenSums(hidden[..i])
    {
      var f := hidden[i];
      assert hidden[..i + 1] == hidden[..i] + [f];
      if !f.empty {
        sums := sums[f.sum := f.path];
      }
      assert HiddenSums(hidden[..i + 1]) == HiddenSums(hidden[..i]) + if f.empty then {} else {f.sum};
    }
    assert hidden[..|hidden|] == hidden;
    if sums == map[] {
      if workspaceWalk.Ok? {
        NothingHidden(hidden, workspaceWalk.value);
      }
      return Ok([]);
    }
    if workspaceWalk.Err? {
      return Err("scan workspace: " + workspaceWalk.error);
    }
    var workspace := workspaceWalk.value;
    var leaked := [];
    for i := 0 to |workspace|
      invariant leaked == Leaks(hidden, workspace[..i])
    {
      assert workspace[..i + 1][..i] == workspace[..i];
      if workspace[i].sum in sums {
        leaked := leaked + [workspace[i].path];
      }
    }
    assert workspace[..|workspace|] == workspace;
    r := Ok(Sort(leaked, Less));
  }

  lemma {:induction false} NothingHidden(hidden: seq<File>, workspace: seq<File>)
    requires HiddenSums(hidden) == {}
    ensures Leaks(hidden, workspace) == []
  {
    if workspace != [] {
      NothingHidden(hidden, workspace[..|workspace| - 1]);
    }
  }

  lemma {:induction false} LeaksAreMatches(hidden: seq<File>, workspace: seq<File>, path: Bytes)
    ensures path in Leaks(hidden, workspace) <==>
            exists f, h :: f in workspace && h in hidden && !h.empty && f.path == path && f.sum == h.sum
  {
    if workspace != [] {
      var before, last := workspace[..|workspace| - 1], workspace[|workspace| - 1];
      LeaksAreMatches(hidden, before, path);
      assert forall f :: f in workspace <==> f in before || f == last;
    }
  }

  /** A path is reported exactly if its content is that of some hidden file that is not
      empty; the report is sorted. */
  lemma BoundaryHolds(hidden: seq<File>, workspace: seq<File>, path: Bytes)
    ensures Sorted(Sort(Leaks(hidden, workspace), Less), Less)
    ensures path in Sort(Leaks(hidden, workspace), Less) <==>
            exists f, h :: f in workspace && h in hidden && !h.empty && f.path == path && f.sum == h.sum
  {
    LessIsOrder();
    SortSorts(Leaks(hidden, workspace), Less);
    SameElements(Leaks(hidden, workspace), Sort(Leaks(hidden, workspace), Less));
    LeaksAreMatches(hidden, workspace, path);
  }
}

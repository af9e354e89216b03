/**
 * The legacy app's local history: `save_session`, `get_history_list` and
 * `load_session` over the `history_data` folder.  The folder is an abstract
 * map from entry names to entries; the clock, PNG encoding and
 * `Image.open` are parameters.
 */
module History {
  import opened Wrappers
  import opened Strings
  import opened Sorting
  import opened LegacySession

  // ---------------------------------------------------------------------------
  // Timestamps and session ids

  /** A reading of `datetime.now()`, to the second. */
  datatype DateTime = DateTime(year: nat, month: nat, day: nat, hour: nat, minute: nat, second: nat)

  predicate ValidDateTime(t: DateTime) {
    1000 <= t.year <= 9999 && 1 <= t.month <= 12 && 1 <= t.day <= 31
    && t.hour < 24 && t.minute < 60 && t.second < 60
  }

  /** `a` is not later than `b`. */
  predicate ChronoLe(a: DateTime, b: DateTime) {
    a.year < b.year || (a.year == b.year &&
    (a.month < b.month || (a.month == b.month &&
    (a.day < b.day || (a.day == b.day &&
    (a.hour < b.hour || (a.hour == b.hour &&
    (a.minute < b.minute || (a.minute == b.minute && a.second <= b.second)))))))))
  }

  function DigitChar(d: nat): (c: char)
    requires d < 10
    ensures '0' <= c <= '9'
  {
    ('0' as int + d) as char
  }

  /** Two decimal digits, zero-padded (`%m`, `%d`, `%H`, `%M`, `%S`). */
  function Pad2(x: nat): (s: string)
    requires x < 100
  {
    [DigitChar(x / 10), DigitChar(x % 10)]
  }

  /** Four decimal digits (`%Y` for years 1000 to 9999). */
  function Pad4(x: nat): (s: string)
    requires x < 10000
  {
    Pad2(x / 100) + Pad2(x % 100)
  }

  /** `strftime("%Y%m%d_%H%M%S")`. */
  function Stamp(t: DateTime): (s: string)
    requires ValidDateTime(t)
  {
    Pad4(t.year) + (Pad2(t.month) + (Pad2(t.day) + ("_" + (Pad2(t.hour) + (Pad2(t.minute) + Pad2(t.second))))))
  }

  /** `f"session_{timestamp}"`. */
  function SessionId(t: DateTime): string
    requires ValidDateTime(t)
  {
    "session_" + Stamp(t)
  }

  lemma Pad2Order(x: nat, y: nat)
    requires x < 100 && y < 100
    ensures LexLe(Pad2(x), Pad2(y)) <==> x <= y
    ensures Pad2(x) == Pad2(y) <==> x == y
  {
    var a, b := Pad2(x), Pad2(y);
    assert a[1..] == [DigitChar(x % 10)] && b[1..] == [DigitChar(y % 10)];
    assert LexLe(a[1..], b[1..]) <==> x % 10 <= y % 10 by {
      assert a[1..][1..] == [] && b[1..][1..] == [];
    }
    assert LexLe(a, b) <==> x / 10 < y / 10 || (x / 10 == y / 10 && x % 10 <= y % 10);
    assert x == 10 * (x / 10) + x % 10 && y == 10 * (y / 10) + y % 10;
    if a == b {
      assert a[0] == b[0] && a[1] == b[1];
    }
  }

  lemma Pad4Order(x: nat, y: nat)
    requires x < 10000 && y < 10000
    ensures LexLe(Pad4(x), Pad4(y)) <==> x <= y
    ensures Pad4(x) == Pad4(y) <==> x == y
  {
    Pad2Order(x / 100, y / 100);
    Pad2Order(x % 100, y % 100);
    LexLeAppend(Pad2(x / 100), Pad2(x % 100), Pad2(y / 100), Pad2(y % 100));
    if Pad4(x) == Pad4(y) {
      assert Pad4(x)[..2] == Pad2(x / 100) && Pad4(y)[..2] == Pad2(y / 100);
      assert Pad4(x)[2..] == Pad2(x % 100) && Pad4(y)[2..] == Pad2(y % 100);
    }
  }

  /** Two equal-length pieces glued in front compare as the pieces, then the rest. */
  lemma GluedOrder(p: string, q: string, r1: string, r2: string, lt: bool, eq: bool, rest: bool)
    requires |p| == |q|
    requires LexLt(p, q) <==> lt
    requires p == q <==> eq
    requires LexLe(r1, r2) <==> rest
    ensures LexLe(p + r1, q + r2) <==> lt || (eq && rest)
    ensures p + r1 == q + r2 <==> eq && r1 == r2
  {
    LexLeAppend(p, r1, q, r2);
    if p + r1 == q + r2 {
      assert (p + r1)[..|p|] == p && (q + r2)[..|q|] == q;
      assert (p + r1)[|p|..] == r1 && (q + r2)[|q|..] == r2;
    }
  }

  /**
   * The timestamp format is fixed-width, so comparing two timestamps as
   * strings compares the instants: sorting by timestamp string sorts by
   * time.
   */
  lemma StampOrderIsChronological(a: DateTime, b: DateTime)
    requires ValidDateTime(a) && ValidDateTime(b)
    ensures LexLe(Stamp(a), Stamp(b)) <==> ChronoLe(a, b)
    ensures Stamp(a) == Stamp(b) <==> a == b
  {
    Pad2Order(a.day, b.day);
    Pad2Order(a.month, b.month);
    Pad4Order(a.year, b.year);
    ClockOrder(a, b);
    var s2a, s2b := "_" + ClockDigits(a), "_" + ClockDigits(b);
    var c3 := ClockLe(a, b);
    GluedOrder(Pad2(a.day), Pad2(b.day), s2a, s2b, a.day < b.day, a.day == b.day, c3);
    var s1a, s1b := Pad2(a.day) + s2a, Pad2(b.day) + s2b;
    var c1 := a.day < b.day || (a.day == b.day && c3);
    GluedOrder(Pad2(a.month), Pad2(b.month), s1a, s1b, a.month < b.month, a.month == b.month, c1);
    var s0a, s0b := Pad2(a.month) + s1a, Pad2(b.month) + s1b;
    var c0 := a.month < b.month || (a.month == b.month && c1);
    GluedOrder(Pad4(a.year), Pad4(b.year), s0a, s0b, a.year < b.year, a.year == b.year, c0);
    assert Stamp(a) == Pad4(a.year) + s0a && Stamp(b) == Pad4(b.year) + s0b;
  }

  /** The `%H%M%S` part of a timestamp. */
  function ClockDigits(t: DateTime): string
    requires ValidDateTime(t)
  {
    Pad2(t.hour) + (Pad2(t.minute) + Pad2(t.second))
  }

  /** `a`'s time of day is not later than `b`'s. */
  predicate ClockLe(a: DateTime, b: DateTime) {
    a.hour < b.hour || (a.hour == b.hour && (a.minute < b.minute || (a.minute == b.minute && a.second <= b.second)))
  }

  /** The time-of-day half of `StampOrderIsChronological`, behind the `_`. */
  lemma ClockOrder(a: DateTime, b: DateTime)
    requires ValidDateTime(a) && ValidDateTime(b)
    ensures LexLe("_" + ClockDigits(a), "_" + ClockDigits(b)) <==> ClockLe(a, b)
    ensures "_" + ClockDigits(a) == "_" + ClockDigits(b) <==> a.hour == b.hour && a.minute == b.minute && a.second == b.second
  {
    Pad2Order(a.second, b.second);
    Pad2Order(a.minute, b.minute);
    Pad2Order(a.hour, b.hour);
    var s5a, s5b := Pad2(a.second), Pad2(b.second);
    GluedOrder(Pad2(a.minute), Pad2(b.minute), s5a, s5b,
      a.minute < b.minute, a.minute == b.minute, a.second <= b.second);
    var s4a, s4b := Pad2(a.minute) + s5a, Pad2(b.minute) + s5b;
    var c4 := a.minute < b.minute || (a.minute == b.minute && a.second <= b.second);
    GluedOrder(Pad2(a.hour), Pad2(b.hour), s4a, s4b, a.hour < b.hour, a.hour == b.hour, c4);
    var s3a, s3b := Pad2(a.hour) + s4a, Pad2(b.hour) + s4b;
    GluedOrder("_", "_", s3a, s3b, false, true, ClockLe(a, b));
  }

  /** Two saves get the same session folder exactly when they happen within the same second. */
  lemma SessionIdsCollideWithinSecond(a: DateTime, b: DateTime)
    requires ValidDateTime(a) && ValidDateTime(b)
    ensures SessionId(a) == SessionId(b) <==> a == b
  {
    StampOrderIsChronological(a, b);
    if SessionId(a) == SessionId(b) {
      assert SessionId(a)[8..] == Stamp(a) && SessionId(b)[8..] == Stamp(b);
    }
  }

  // ---------------------------------------------------------------------------
  // Reference image file names

  /** `str(n)` for a natural number. */
  function NatToString(n: nat): (s: string)
    ensures |s| >= 1
    ensures n < 10 ==> s == [DigitChar(n)]
  {
    if n < 10 then [DigitChar(n)] else NatToString(n / 10) + [DigitChar(n % 10)]
  }

  /** `f"ref_{i}.png"`. */
  function RefName(i: nat): string {
    "ref_" + NatToString(i) + ".png"
  }

  /** The reload filter: `ref_*` ending `.png` or `.jpg`. */
  predicate IsRefName(f: string) {
    StartsWith(f, "ref_") && (EndsWith(f, ".png") || EndsWith(f, ".jpg"))
  }

  /** Every file name the save writes passes the reload filter. */
  lemma SavedNamesPassFilter(i: nat)
    ensures IsRefName(RefName(i))
  {
    var d := NatToString(i);
    assert RefName(i)[..4] == "ref_";
    assert RefName(i)[|RefName(i)| - 4..] == ".png";
  }

  /** Up to ten images, the names sort in save order. */
  lemma RefNamesSortInSaveOrder(i: nat, j: nat)
    requires i < 10 && j < 10
    ensures LexLe(RefName(i), RefName(j)) <==> i <= j
  {
    assert RefName(i) == "ref_" + ([DigitChar(i)] + ".png");
    assert RefName(j) == "ref_" + ([DigitChar(j)] + ".png");
    LexLeAppend("ref_", [DigitChar(i)] + ".png", "ref_", [DigitChar(j)] + ".png");
    LexLeAppend([DigitChar(i)], ".png", [DigitChar(j)], ".png");
    assert [DigitChar(i)][1..] == [];
    LexLeRefl(".png");
  }

  /** The eleventh image (`ref_10.png`) sorts before the third (`ref_2.png`). */
  lemma RefNamesLeaveSaveOrderFromEleven()
    ensures LexLt(RefName(10), RefName(2))
  {
    assert NatToString(10) == ['1', '0'];
    assert RefName(10) == "ref_" + ("10" + ".png");
    assert RefName(2) == "ref_" + ("2" + ".png");
    LexLeAppend("ref_", "10" + ".png", "ref_", "2" + ".png");
    assert RefName(10)[4] != RefName(2)[4];
  }

  // ---------------------------------------------------------------------------
  // The history folder

  /** A file's bytes, as an opaque value. */
  datatype Blob = Blob(bytes: seq<bv8>)

  /**
   * The `metadata.json` dictionary.  Each member may be missing (also
   * when the file was written by hand); `None` stands for a missing member.
   */
  datatype Meta = Meta(
    timestamp: Option<string>,
    inputText: Option<string>,
    phase: Option<string>,
    archetype: Option<string>,
    selectedStyle: Option<string>,
    draftData: Option<DraftJson>,
    finalPrompt: Option<string>,
    isRefMandatory: Option<bool>,
    additionalInst: Option<string>)

  /**
   * `metadata.json` of a session folder: missing, not valid JSON (`json.load`
   * raises), valid JSON whose top level is not an object (`meta.get`
   * raises), or the object.
   */
  datatype MetaFile = NoMetaFile | Unreadable | NotAnObject | MetaJson(meta: Meta)

  /** The entry is a folder whose `metadata.json` parses to something other than an object. */
  predicate HasNonObjectMeta(e: Entry) {
    e.SessionFolder? && e.folder.metadata.NotAnObject?
  }

  /** A session folder: `metadata.json`, the `ref_images` folder if any, `final_output.png` if any. */
  datatype Folder = Folder(metadata: MetaFile, refImages: Option<map<string, Blob>>, finalOutput: Option<Blob>)

  /** An entry of `history_data`: a folder, or a plain file. */
  datatype Entry = SessionFolder(folder: Folder) | PlainFile

  /** The entry has a readable `metadata.json`. */
  predicate HasMeta(e: Entry) {
    e.SessionFolder? && e.folder.metadata.MetaJson?
  }

  /** One row of the history list. */
  datatype SessionSummary = SessionSummary(id: string, timestamp: string, title: string, style: string)

  function SummaryId(s: SessionSummary): string { s.id }
  function SummaryTimestamp(s: SessionSummary): string { s.timestamp }

  /** The row `get_history_list` builds from a session folder's metadata. */
  function SummaryOf(id: string, meta: Meta): SessionSummary {
    SessionSummary(id, meta.timestamp.GetOr(""), meta.inputText.GetOr("No Title"), meta.selectedStyle.GetOr(""))
  }

  /** `x` is the row of a listed session folder. */
  predicate IsRowOf(dir: map<string, Entry>, x: SessionSummary) {
    x.id in dir && HasMeta(dir[x.id]) && x == SummaryOf(x.id, dir[x.id].folder.metadata.meta)
  }

  /** The stored title: `main_title`, or "Untitled" when it is missing or empty. */
  function TitleOf(d: DraftJson): (title: string)
    ensures title != ""
    ensures d.mainTitle.Some? && d.mainTitle.value != "" ==> title == d.mainTitle.value
    ensures !(d.mainTitle.Some? && d.mainTitle.value != "") ==> title == "Untitled"
  {
    if d.mainTitle.Some? && d.mainTitle.value != "" then d.mainTitle.value else "Untitled"
  }

  /** The metadata `save_session` writes. */
  function SavedMeta(now: DateTime, phase: string, draft: DraftJson, style: string, finalPrompt: string,
                     isRefMandatory: bool, additionalInst: string): Meta
    requires ValidDateTime(now)
  {
    Meta(Some(Stamp(now)), Some(TitleOf(draft)), Some(phase), Some(draft.archetypeName.GetOr("")),
      Some(style), Some(draft), Some(finalPrompt), Some(isRefMandatory), Some(additionalInst))
  }

  /** `ref_{i}.png` for every image from index `from` on whose encoding succeeds, over `m`. */
  function WriteRefs(m: map<string, Blob>, refs: seq<Picture>, encode: Picture -> Outcome<Blob>, from: nat): map<string, Blob>
    requires from <= |refs|
    decreases |refs| - from
  {
    if from == |refs| then m
    else
      var next := match encode(refs[from])
        case Ok(b) => m[RefName(from) := b]
        case Err(_) => m;
      WriteRefs(next, refs, encode, from + 1)
  }

  /** The images `load_session` reads back from the names `files`, in that order, skipping what fails to open. */
  function ReloadedRefs(files: seq<string>, m: map<string, Blob>, open: Blob -> Outcome<Picture>): (pics: seq<Picture>)
    requires forall f :: f in files ==> f in m
    ensures |pics| <= |files|
  {
    if files == [] then []
    else
      var head := if IsRefName(files[0]) && open(m[files[0]]).Ok? then [open(m[files[0]]).value] else [];
      head + ReloadedRefs(files[1..], m, open)
  }

  /** The images restored from a `ref_images` folder: its names sorted, filtered and opened. */
  ghost function RestoredRefs(refDir: Option<map<string, Blob>>, open: Blob -> Outcome<Picture>): seq<Picture> {
    match refDir
    case None => []
    case Some(m) => ReloadedRefs(SortedNames(m.Keys), m, open)
  }

  /** `[RefName(0), ..., RefName(n - 1)]`. */
  function RefNames(n: nat): (names: seq<string>)
    ensures |names| == n
    ensures forall i :: 0 <= i < n ==> names[i] == RefName(i)
  {
    if n == 0 then [] else RefNames(n - 1) + [RefName(n - 1)]
  }

  /** Writing `n` images whose encodings succeed into an empty folder gives exactly the names `ref_0.png` to `ref_{n-1}.png`. */
  lemma {:induction false} WriteRefsContents(m: map<string, Blob>, refs: seq<Picture>, encode: Picture -> Outcome<Blob>, from: nat)
    requires from <= |refs|
    requires forall i :: 0 <= i < |refs| ==> encode(refs[i]).Ok?
    ensures forall i :: from <= i < |refs| ==>
      RefName(i) in WriteRefs(m, refs, encode, from) && WriteRefs(m, refs, encode, from)[RefName(i)] == encode(refs[i]).value
    ensures forall n :: n in WriteRefs(m, refs, encode, from) ==> n in m || exists i :: from <= i < |refs| && n == RefName(i)
    ensures forall n :: n in m && (forall i :: from <= i < |refs| ==> n != RefName(i)) ==>
      n in WriteRefs(m, refs, encode, from) && WriteRefs(m, refs, encode, from)[n] == m[n]
    decreases |refs| - from
  {
    if from < |refs| {
      var next := m[RefName(from) := encode(refs[from]).value];
      WriteRefsContents(next, refs, encode, from + 1);
      forall i | from < i < |refs| ensures RefName(i) != RefName(from) {
        if RefName(i) == RefName(from) { RefNameInjective(i, from); }
      }
    }
  }

  lemma RefNameInjective(i: nat, j: nat)
    requires RefName(i) == RefName(j)
    ensures i == j
  {
    var a, b := NatToString(i), NatToString(j);
    assert RefName(i)[4..|RefName(i)| - 4] == a;
    assert RefName(j)[4..|RefName(j)| - 4] == b;
    NatToStringInjective(i, j);
  }

  lemma {:induction false} NatToStringInjective(i: nat, j: nat)
    requires NatToString(i) == NatToString(j)
    ensures i == j
    decreases i
  {
    var s := NatToString(i);
    if i >= 10 && j >= 10 {
      assert s[..|s| - 1] == NatToString(i / 10) && s[..|s| - 1] == NatToString(j / 10);
      NatToStringInjective(i / 10, j / 10);
      assert s[|s| - 1] == DigitChar(i % 10) == DigitChar(j % 10);
    }
  }

  /** Up to ten images, the saved names in save order are already sorted. */
  lemma RefNamesSorted(n: nat)
    requires n <= 10
    ensures SortedBy(RefNames(n), Id) && KeysDistinct(RefNames(n), Id)
  {
    var r := RefNames(n);
    forall i, j | 0 <= i < j < n ensures LexLe(Id(r[i]), Id(r[j])) && Id(r[i]) != Id(r[j]) {
      RefNamesSortInSaveOrder(i, j);
      if r[i] == r[j] { RefNameInjective(i, j); }
    }
  }

  lemma {:induction false} ReloadAll(n: nat, m: map<string, Blob>, refs: seq<Picture>, encode: Picture -> Outcome<Blob>, open: Blob -> Outcome<Picture>)
    requires n <= |refs|
    requires forall i :: 0 <= i < |refs| ==> encode(refs[i]).Ok? && open(encode(refs[i]).value) == Ok(refs[i])
    requires forall i :: 0 <= i < n ==> RefName(i) in m && m[RefName(i)] == encode(refs[i]).value
    ensures ReloadedRefs(RefNames(n), m, open) == refs[..n]
    decreases n
  {
    if n > 0 {
      var names, last := RefNames(n - 1), RefName(n - 1);
      ReloadAll(n - 1, m, refs, encode, open);
      assert forall g :: g in names ==> g in m;
      ReloadedRefsSnoc(names, last, m, open);
      SavedNamesPassFilter(n - 1);
      assert open(m[last]) == Ok(refs[n - 1]);
      assert (if IsRefName(last) && open(m[last]).Ok? then [open(m[last]).value] else []) == [refs[n - 1]];
      PrefixSnoc(refs, n);
      calc {
        ReloadedRefs(RefNames(n), m, open);
        ReloadedRefs(names + [last], m, open);
        ReloadedRefs(names, m, open) + [refs[n - 1]];
        { assert ReloadedRefs(names, m, open) == refs[..n - 1]; }
        refs[..n - 1] + [refs[n - 1]];
        refs[..n];
      }
    }
  }

  lemma PrefixSnoc<T>(s: seq<T>, n: nat)
    requires 0 < n <= |s|
    ensures s[..n] == s[..n - 1] + [s[n - 1]]
  {
  }

  lemma {:induction false} ReloadedRefsAppend(a: seq<string>, b: seq<string>, m: map<string, Blob>, open: Blob -> Outcome<Picture>)
    requires forall f :: f in a + b ==> f in m
    ensures ReloadedRefs(a + b, m, open) == ReloadedRefs(a, m, open) + ReloadedRefs(b, m, open)
    decreases |a|
  {
    if a == [] {
      assert a + b == b;
    } else {
      assert (a + b)[0] == a[0] && (a + b)[1..] == a[1..] + b;
      ReloadedRefsAppend(a[1..], b, m, open);
    }
  }

  lemma ReloadedRefsSnoc(a: seq<string>, f: string, m: map<string, Blob>, open: Blob -> Outcome<Picture>)
    requires forall g :: g in a ==> g in m
    requires f in m
    ensures ReloadedRefs(a + [f], m, open) ==
      ReloadedRefs(a, m, open) + (if IsRefName(f) && open(m[f]).Ok? then [open(m[f]).value] else [])
  {
    ReloadedRefsAppend(a, [f], m, open);
    assert [f][1..] == [];
  }

  /**
   * Save/load round trip of the reference images: up to ten images saved
   * into a fresh folder, each encoding and decoding back to itself, are
   * reloaded exactly, in save order.
   */
  lemma RefImagesRoundTrip(refs: seq<Picture>, encode: Picture -> Outcome<Blob>, open: Blob -> Outcome<Picture>)
    requires |refs| <= 10
    requires forall i :: 0 <= i < |refs| ==> encode(refs[i]).Ok? && open(encode(refs[i]).value) == Ok(refs[i])
    ensures RestoredRefs(Some(WriteRefs(map[], refs, encode, 0)), open) == refs
  {
    var m := WriteRefs(map[], refs, encode, 0);
    SavedFolderHoldsEncodings(refs, encode);
    SavedNamesListSorted(refs, encode);
    assert SortedNames(m.Keys) == RefNames(|refs|);
    assert RestoredRefs(Some(m), open) == ReloadedRefs(RefNames(|refs|), m, open);
    ReloadAll(|refs|, m, refs, encode, open);
    assert refs[..|refs|] == refs;
  }

  /** A fresh save stores image `i`'s encoding as `ref_{i}.png`. */
  lemma SavedFolderHoldsEncodings(refs: seq<Picture>, encode: Picture -> Outcome<Blob>)
    requires forall i :: 0 <= i < |refs| ==> encode(refs[i]).Ok?
    ensures forall i :: 0 <= i < |refs| ==>
      RefName(i) in WriteRefs(map[], refs, encode, 0) && WriteRefs(map[], refs, encode, 0)[RefName(i)] == encode(refs[i]).value
  {
    WriteRefsContents(map[], refs, encode, 0);
  }

  /** Up to ten images saved into a fresh folder are listed back, sorted, as `ref_0.png`, `ref_1.png`, ... */
  lemma SavedNamesListSorted(refs: seq<Picture>, encode: Picture -> Outcome<Blob>)
    requires |refs| <= 10
    requires forall i :: 0 <= i < |refs| ==> encode(refs[i]).Ok?
    ensures SortedNames(WriteRefs(map[], refs, encode, 0).Keys) == RefNames(|refs|)
  {
    var names := RefNames(|refs|);
    WriteRefsKeys(map[], refs, encode, 0);
    RefNamesMembers(|refs|);
    RefNamesSorted(|refs|);
    SortedNamesOfSorted(names, WriteRefs(map[], refs, encode, 0).Keys);
  }

  /** The names `ref_{i}.png` for `lo <= i < hi`. */
  ghost function RefNameSet(lo: nat, hi: nat): set<string> {
    set i: nat | lo <= i < hi :: RefName(i)
  }

  /** When every encoding succeeds, the save adds exactly the names `ref_{from}.png` onwards. */
  lemma {:induction false} WriteRefsKeys(m: map<string, Blob>, refs: seq<Picture>, encode: Picture -> Outcome<Blob>, from: nat)
    requires from <= |refs|
    requires forall i :: 0 <= i < |refs| ==> encode(refs[i]).Ok?
    ensures WriteRefs(m, refs, encode, from).Keys == m.Keys + RefNameSet(from, |refs|)
    decreases |refs| - from
  {
    if from < |refs| {
      var next := m[RefName(from) := encode(refs[from]).value];
      WriteRefsKeys(next, refs, encode, from + 1);
      assert RefNameSet(from, |refs|) == {RefName(from)} + RefNameSet(from + 1, |refs|);
    } else {
      assert RefNameSet(from, |refs|) == {};
    }
  }

  lemma {:induction false} RefNamesMembers(n: nat)
    ensures forall x :: x in RefNames(n) <==> x in RefNameSet(0, n)
  {
    if n > 0 {
      RefNamesMembers(n - 1);
      assert RefNames(n) == RefNames(n - 1) + [RefName(n - 1)];
      assert RefNameSet(0, n) == RefNameSet(0, n - 1) + {RefName(n - 1)};
    } else {
      assert RefNameSet(0, n) == {};
    }
  }

  /**
   * The loop of `get_history_list` over a listing of the history folder:
   * a row for each listed entry that holds a readable `metadata.json`.
   */
  method CollectRows(dir: map<string, Entry>, items: seq<string>) returns (found: seq<SessionSummary>)
    requires KeysDistinct(items, Id) && forall n :: n in items <==> n in dir
    ensures forall x :: x in found <==> IsRowOf(dir, x)
    ensures KeysDistinct(found, SummaryId)
  {
    found := [];
    for i := 0 to |items|
      invariant forall x :: x in found <==> IsRowOf(dir, x) && x.id in items[..i]
      invariant KeysDistinct(found, SummaryId)
    {
      var item := items[i];
      var entry := dir[item];
      if entry.SessionFolder? && entry.folder.metadata.MetaJson? {
        var row := SummaryOf(item, entry.folder.metadata.meta);
        assert item !in items[..i];
        found := found + [row];
      }
      assert items[..i + 1] == items[..i] + [item];
    }
    assert items[..|items|] == items;
  }

  /** `sessions.sort(key=lambda x: x["timestamp"], reverse=True)`, as an insertion sort. */
  method SortByTimestampDesc(rows: seq<SessionSummary>) returns (sorted: seq<SessionSummary>)
    ensures SortedDescBy(sorted, SummaryTimestamp)
    ensures multiset(sorted) == multiset(rows)
  {
    sorted := [];
    for i := 0 to |rows|
      invariant SortedDescBy(sorted, SummaryTimestamp)
      invariant multiset(sorted) == multiset(rows[..i])
    {
      sorted := InsertDescBy(rows[i], sorted, SummaryTimestamp);
      assert rows[..i + 1] == rows[..i] + [rows[i]];
    }
    assert rows[..|rows|] == rows;
  }

  /** The reload loop of `load_session`: the `ref_images` folder's names, sorted, filtered and opened. */
  method ReadRefImages(m: map<string, Blob>, open: Blob -> Outcome<Picture>) returns (pics: seq<Picture>)
    ensures pics == RestoredRefs(Some(m), open)
  {
    var listing := ListDir(m);
    var files := SortBy(listing, Id);
    SortedListingIsUnique(listing, m.Keys);
    pics := ReadRefFiles(files, m, open);
  }

  /** Opens, in order, each of `files` that passes the reload filter, skipping those that fail. */
  method ReadRefFiles(files: seq<string>, m: map<string, Blob>, open: Blob -> Outcome<Picture>) returns (pics: seq<Picture>)
    requires forall f :: f in files ==> f in m
    ensures pics == ReloadedRefs(files, m, open)
  {
    pics := [];
    for i := 0 to |files|
      invariant pics == ReloadedRefs(files[..i], m, open)
    {
      var file := files[i];
      ReloadedRefsSnoc(files[..i], file, m, open);
      assert files[..i + 1] == files[..i] + [file];
      if IsRefName(file) {
        var img := open(m[file]);
        if img.Ok? {
          pics := pics + [img.value];
        }
      }
    }
    assert files[..|files|] == files;
  }

  /**
   * `os.listdir`: every name once, in an order the file system chooses.
   */
  method ListDir<T>(m: map<string, T>) returns (names: seq<string>)
    ensures KeysDistinct(names, Id) && forall n :: n in names <==> n in m
  {
    names := [];
    var rest := m.Keys;
    while rest != {}
      invariant KeysDistinct(names, Id)
      invariant forall n :: n in m <==> n in rest || n in names
      invariant forall n :: n in rest ==> n !in names
      decreases |rest|
    {
      var n :| n in rest;
      names := names + [n];
      rest := rest - {n};
    }
  }

  /** What `load_session` reports. */
  datatype LoadResult = Restored | NotFound | LoadFailed

  /**
   * The `history_data` folder, as the history functions see and change it.
   * `dir` maps each entry name to its entry.
   */
  class HistoryStore {
    var dir: map<string, Entry>

    constructor ()
      ensures dir == map[]
    {
      dir := map[];
    }

    /**
     * `get_history_list()`: one row per entry holding a readable
     * `metadata.json`, sorted by timestamp string, largest first.  Rows
     * with equal timestamps keep the listing's order, which the file system
     * chooses.
     */
    method GetHistoryList() returns (sessions: seq<SessionSummary>)
      ensures forall x :: x in sessions <==> IsRowOf(dir, x)
      ensures KeysDistinct(sessions, SummaryId)
      ensures SortedDescBy(sessions, SummaryTimestamp)
    {
      var items := ListDir(dir);
      var found := CollectRows(dir, items);
      sessions := SortByTimestampDesc(found);
      PermutationKeepsKeysDistinct(found, sessions, SummaryId);
      assert forall x :: x in sessions <==> x in multiset(found);
    }

    /**
     * `save_session(session_state, final_image)`: writes the metadata, the
     * reference images as `ref_{i}.png` and the final image into the folder
     * named after the current second, and returns that name.  A folder of
     * that name is reused, so older files it holds stay unless overwritten;
     * a plain file of that name makes `makedirs` raise.
     */
    method SaveSession(s: SessionState, finalImage: Option<Picture>, now: DateTime, encode: Picture -> Outcome<Blob>)
      returns (id: Option<string>)
      requires ValidDateTime(now)
      modifies this
      ensures var name := SessionId(now);
        if name in old(dir) && old(dir)[name].PlainFile? then id == None && dir == old(dir)
        else
          var prev := if name in old(dir) then old(dir)[name].folder else Folder(NoMetaFile, None, None);
          && id == Some(name)
          && dir == old(dir)[name := SessionFolder(Folder(
               MetaJson(SavedMeta(now, s.phase, s.draftData, s.selectedStyleKey, s.finalPrompt, s.isRefMandatory, s.additionalInst)),
               if s.refImages == [] then prev.refImages
               else Some(WriteRefs(prev.refImages.GetOr(map[]), s.refImages, encode, 0)),
               if finalImage.Some? && encode(finalImage.value).Ok? then Some(encode(finalImage.value).value)
               else prev.finalOutput))]
    {
      var name := SessionId(now);
      if name in dir && dir[name].PlainFile? {
        return None;
      }
      var folder := if name in dir then dir[name].folder else Folder(NoMetaFile, None, None);
      var prevRefs := folder.refImages;
      var prevFinal := folder.finalOutput;
      var meta := SavedMeta(now, s.phase, s.draftData, s.selectedStyleKey, s.finalPrompt, s.isRefMandatory, s.additionalInst);
      folder := folder.(metadata := MetaJson(meta));
      if s.refImages != [] {
        var refDir := prevRefs.GetOr(map[]);
        var i := 0;
        while i < |s.refImages|
          invariant 0 <= i <= |s.refImages|
          invariant WriteRefs(refDir, s.refImages, encode, i) == WriteRefs(prevRefs.GetOr(map[]), s.refImages, encode, 0)
        {
          var saved := encode(s.refImages[i]);
          if saved.Ok? {
            refDir := refDir[RefName(i) := saved.value];
          }
          i := i + 1;
        }
        folder := folder.(refImages := Some(refDir));
      }
      if finalImage.Some? {
        var saved := encode(finalImage.value);
        if saved.Ok? {
          folder := folder.(finalOutput := Some(saved.value));
        }
      }
      dir := dir[name := SessionFolder(folder)];
      id := Some(name);
    }

    /**
     * `load_session(session_id)`.  A missing entry, or one whose
     * `metadata.json` is missing or not valid JSON, changes nothing.  JSON
     * that is not an object fails after the phase was already set to
     * `design`.  Otherwise the settings are restored with their defaults,
     * the phase becomes `design`, the reference images are reloaded, and the
     * final image is replaced when `final_output.png` exists; if that file
     * fails to open, the load reports failure after everything else was
     * already restored.
     */
    method LoadSession(s: SessionState, id: string, open: Blob -> Outcome<Picture>) returns (r: LoadResult)
      modifies s`phase, s`draftData, s`finalPrompt, s`selectedStyleKey, s`isRefMandatory, s`additionalInst,
        s`refImages, s`finalImage
      ensures id !in dir ==> r == NotFound && unchanged(s)
      ensures id in dir && !HasMeta(dir[id]) && !HasNonObjectMeta(dir[id]) ==> r == LoadFailed && unchanged(s)
      ensures id in dir && HasNonObjectMeta(dir[id]) ==>
        && r == LoadFailed && s.phase == "design"
        && unchanged(s`draftData, s`finalPrompt, s`selectedStyleKey, s`isRefMandatory, s`additionalInst, s`refImages, s`finalImage)
      ensures id in dir && HasMeta(dir[id]) ==>
        && s.phase == "design"
        && RestoredSettings(s, dir[id].folder.metadata.meta)
        && s.refImages == RestoredRefs(dir[id].folder.refImages, open)
        && r == FinalImageResult(dir[id].folder.finalOutput, open)
        && s.finalImage == FinalImageAfter(dir[id].folder.finalOutput, open, old(s.finalImage))
    {
      if id !in dir {
        return NotFound;
      }
      var entry := dir[id];
      if !entry.SessionFolder? || entry.folder.metadata.NoMetaFile? || entry.folder.metadata.Unreadable? {
        return LoadFailed;
      }
      s.phase := "design";
      if entry.folder.metadata.NotAnObject? {
        return LoadFailed;
      }
      RestoreSettings(s, entry.folder.metadata.meta);
      r := RestoreImages(s, entry.folder, open);
    }
  }

  /** The five settings `load_session` restores, each with its default when missing. */
  ghost predicate RestoredSettings(s: SessionState, meta: Meta)
    reads s
  {
    && s.draftData == meta.draftData.GetOr(EMPTY_DRAFT)
    && s.finalPrompt == meta.finalPrompt.GetOr("")
    && s.selectedStyleKey == meta.selectedStyle.GetOr(DEFAULT_STYLE)
    && s.isRefMandatory == meta.isRefMandatory.GetOr(false)
    && s.additionalInst == meta.additionalInst.GetOr("")
  }

  /** What the load reports once the metadata was read: failure exactly when `final_output.png` exists and fails to open. */
  function FinalImageResult(finalOutput: Option<Blob>, open: Blob -> Outcome<Picture>): (r: LoadResult)
    ensures r == LoadFailed <==> finalOutput.Some? && open(finalOutput.value).Err?
    ensures r != NotFound
  {
    if finalOutput.Some? && open(finalOutput.value).Err? then LoadFailed else Restored
  }

  /** `final_image` after the load: the opened `final_output.png`, else what it was. */
  function FinalImageAfter(finalOutput: Option<Blob>, open: Blob -> Outcome<Picture>, previous: Option<Picture>): (p: Option<Picture>)
    ensures finalOutput.Some? && open(finalOutput.value).Ok? ==> p == Some(open(finalOutput.value).value)
    ensures !(finalOutput.Some? && open(finalOutput.value).Ok?) ==> p == previous
  {
    if finalOutput.Some? && open(finalOutput.value).Ok? then Some(open(finalOutput.value).value) else previous
  }

  /** Lines 75-79 of `load_session`: the settings, with their defaults. */
  method RestoreSettings(s: SessionState, meta: Meta)
    modifies s`draftData, s`finalPrompt, s`selectedStyleKey, s`isRefMandatory, s`additionalInst
    ensures RestoredSettings(s, meta)
  {
    s.draftData := meta.draftData.GetOr(EMPTY_DRAFT);
    s.finalPrompt := meta.finalPrompt.GetOr("");
    s.selectedStyleKey := meta.selectedStyle.GetOr(DEFAULT_STYLE);
    s.isRefMandatory := meta.isRefMandatory.GetOr(false);
    s.additionalInst := meta.additionalInst.GetOr("");
  }

  /** The image part of `load_session`: reset and reload the reference images, then open `final_output.png` if present. */
  method RestoreImages(s: SessionState, f: Folder, open: Blob -> Outcome<Picture>) returns (r: LoadResult)
    modifies s`refImages, s`finalImage
    ensures s.refImages == RestoredRefs(f.refImages, open)
    ensures r == FinalImageResult(f.finalOutput, open)
    ensures s.finalImage == FinalImageAfter(f.finalOutput, open, old(s.finalImage))
  {
    s.refImages := [];
    if f.refImages.Some? {
      s.refImages := ReadRefImages(f.refImages.value, open);
    }
    r := Restored;
    if f.finalOutput.Some? {
      var img := open(f.finalOutput.value);
      if img.Ok? {
        s.finalImage := Some(img.value);
      } else {
        r := LoadFailed;
      }
    }
  }

  /**
   * With timestamps written by `save_session`, the history list is newest
   * first: a row never precedes one saved later.
   */
  lemma HistoryListIsNewestFirst(sessions: seq<SessionSummary>, times: seq<DateTime>)
    requires |times| == |sessions| && SortedDescBy(sessions, SummaryTimestamp)
    requires forall i :: 0 <= i < |sessions| ==> ValidDateTime(times[i]) && sessions[i].timestamp == Stamp(times[i])
    ensures forall i, j :: 0 <= i < j < |sessions| ==> ChronoLe(times[j], times[i])
  {
    forall i, j | 0 <= i < j < |sessions| ensures ChronoLe(times[j], times[i]) {
      StampOrderIsChronological(times[j], times[i]);
    }
  }

  /**
   * Loading the metadata `save_session` wrote gives back the settings it
   * saved; the title and timestamp it lists come from the same save.
   */
  lemma SavedMetaRoundTrip(now: DateTime, phase: string, draft: DraftJson, style: string, finalPrompt: string,
                           isRefMandatory: bool, additionalInst: string, id: string)
    requires ValidDateTime(now)
    ensures var meta := SavedMeta(now, phase, draft, style, finalPrompt, isRefMandatory, additionalInst);
      && meta.draftData.GetOr(EMPTY_DRAFT) == draft
      && meta.finalPrompt.GetOr("") == finalPrompt
      && meta.selectedStyle.GetOr(DEFAULT_STYLE) == style
      && meta.isRefMandatory.GetOr(false) == isRefMandatory
      && meta.additionalInst.GetOr("") == additionalInst
      && SummaryOf(id, meta) == SessionSummary(id, Stamp(now), TitleOf(draft), style)
  {
  }
}

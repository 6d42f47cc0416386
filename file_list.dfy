/** The printer's file inventory: the records a scan of the printer's
    storage produces, the two caches rebuilt from them (short DOS-style
    name to file name, file name to record), lookup through those caches,
    selection of one file and deletion. */
module FileList {
  import opened Wrappers
  import opened Text
  import opened Paths

  /** One file on the printer's storage. The record is frozen. */
  datatype FileInfo = FileInfo(dosname: string, path: Path, size: int, timestamp: string)
  {
    /** `file_name`: the last path component, lower-cased. */
    function FileName(): (r: string)
      ensures |r| == |Name(path)|
      ensures forall i :: 0 <= i < |r| ==> !IsUpper(r[i])
      ensures WellFormed(path) ==> (r == "" || IsPart(r))
    {
      var n := Name(path);
      LowerKeeps(n, '/');
      LowerKeeps(n, '.');
      Lower(n)
    }

    /** `get_log_info`: the line the M20 file listing prints for the
        file, `dosname size timestamp "file_name"`. */
    function LogInfo(): (r: string)
      ensures |r| >= |dosname| + 1 && r[..|dosname| + 1] == dosname + " "
      ensures |r| >= |FileName()| + 2 && r[|r| - |FileName()| - 2..] == "\"" + FileName() + "\""
      ensures |r| == |dosname| + |IntToString(size)| + |timestamp| + |FileName()| + 5
    {
      dosname + " " + IntToString(size) + " " + timestamp + " \"" + FileName() + "\""
    }
  }

  /** Splitting `a b c rest` on spaces gives back `a`, `b` and `c` when
      none of them holds a space. */
  lemma {:induction false} SplitThreeFields(a: string, b: string, c: string, rest: string)
    requires ' ' !in a && ' ' !in b && ' ' !in c
    ensures var fields := Split(a + " " + b + " " + c + " " + rest, ' ');
      |fields| >= 4 && fields[0] == a && fields[1] == b && fields[2] == c
  {
    var t2 := c + " " + rest;
    var t1 := b + " " + t2;
    assert a + " " + b + " " + c + " " + rest == a + " " + t1;
    SplitField(a, t1, ' ');
    SplitField(b, t2, ' ');
    SplitField(c, rest, ' ');
  }

  /** The listing line can be read back: its first three space-separated
      fields are the short name, the size and the timestamp. */
  lemma {:induction false} LogInfoFields(f: FileInfo)
    requires ' ' !in f.dosname && ' ' !in f.timestamp
    ensures var fields := Split(f.LogInfo(), ' ');
      |fields| >= 4 && fields[0] == f.dosname && fields[2] == f.timestamp &&
      |fields[1]| >= 1 && (forall i :: (if fields[1][0] == '-' then 1 else 0) <= i < |fields[1]| ==> IsDigit(fields[1][i])) &&
      IntValue(fields[1]) == f.size
  {
    var size := IntToString(f.size);
    assert ' ' !in size by {
      if f.size < 0 {
        assert size == ['-'] + size[1..];
      }
    }
    SplitThreeFields(f.dosname, size, f.timestamp, "\"" + f.FileName() + "\"");
    assert f.LogInfo() == f.dosname + " " + size + " " + f.timestamp + " " + ("\"" + f.FileName() + "\"");
    IntRoundTrip(f.size);
  }

  /** The file name of an entry at `dir/.../n` is `n` lower-cased. */
  lemma {:induction false} FileNameOfEntry(f: FileInfo, parts: seq<string>)
    requires |parts| >= 1 && forall i :: 0 <= i < |parts| ==> IsPart(parts[i])
    requires f.path == Parse(Join(parts, '/'))
    ensures f.FileName() == Lower(parts[|parts| - 1])
  {
    NameOfJoin(parts);
  }

  /** What the transport reports for one listed file: its path, the reply
      to the size query (`None` when the server gives no size) and the
      reply to the modification-time query. */
  datatype RemoteEntry = RemoteEntry(path: string, size: Option<int>, modified: string)

  /** The outcome of connecting and listing the root and `cache/`
      directories: a transport failure, or the two listings (`None` where
      the listing call returned nothing). */
  datatype Listing =
    | TransportError(message: string)
    | Listed(root: Option<seq<RemoteEntry>>, cache: Option<seq<RemoteEntry>>)

  function OrEmpty(entries: Option<seq<RemoteEntry>>): seq<RemoteEntry>
  {
    if entries.Some? then entries.value else []
  }

  /** The entries a listing scans: the root's, then those of `cache/`. */
  function ScannedEntries(listing: Listing): seq<RemoteEntry>
    requires listing.Listed?
  {
    OrEmpty(listing.root) + OrEmpty(listing.cache)
  }

  /** `_get_ftp_file_info`: the record for one entry. `dosName` stands for
      the library's short-name derivation, given the file name and the
      names already in use; `timestampOf` for turning the
      modification-time reply into the listing's timestamp. */
  function RecordFor(e: RemoteEntry, existing: seq<string>,
                     dosName: (string, seq<string>) -> string, timestampOf: string -> string): (r: FileInfo)
    ensures r.path == Parse(e.path)
    ensures r.size == (if e.size.Some? then e.size.value else 0)
    ensures r.dosname == Lower(dosName(r.FileName(), existing))
    ensures r.timestamp == timestampOf(e.modified)
  {
    var path := Parse(e.path);
    var fileName := FileInfo("", path, 0, "").FileName();
    FileInfo(Lower(dosName(fileName, existing)), path, if e.size.Some? then e.size.value else 0, timestampOf(e.modified))
  }

  /** The file names of the first `k` entries. */
  function LongNamesBefore(entries: seq<RemoteEntry>, k: nat): (names: seq<string>)
    requires k <= |entries|
    ensures |names| == k
  {
    seq(k, j requires 0 <= j < k => Lower(NameOf(entries[j].path)))
  }

  /** The scan as written: entry `k`'s short name is derived from the file
      names of entries `0..k-1`. */
  function LongNameScan(entries: seq<RemoteEntry>,
                        dosName: (string, seq<string>) -> string, timestampOf: string -> string): (rs: seq<FileInfo>)
    ensures |rs| == |entries|
  {
    seq(|entries|, k requires 0 <= k < |entries| => RecordFor(entries[k], LongNamesBefore(entries, k), dosName, timestampOf))
  }

  function FileNames(rs: seq<FileInfo>): (names: seq<string>)
    ensures |names| == |rs|
  {
    seq(|rs|, i requires 0 <= i < |rs| => rs[i].FileName())
  }

  function DosNames(rs: seq<FileInfo>): (names: seq<string>)
    ensures |names| == |rs|
    ensures forall i :: 0 <= i < |rs| ==> names[i] == rs[i].dosname
  {
    seq(|rs|, i requires 0 <= i < |rs| => rs[i].dosname)
  }

  /** `_scan_ftp_file_list` as written: each record is produced, then its
      file name is appended to the names the next derivation is given. */
  method ScanFtpFileList(entries: seq<RemoteEntry>,
                         dosName: (string, seq<string>) -> string, timestampOf: string -> string)
    returns (records: seq<FileInfo>)
    ensures records == LongNameScan(entries, dosName, timestampOf)
  {
    var existing: seq<string> := [];
    records := [];
    for k := 0 to |entries|
      invariant |records| == k
      invariant existing == LongNamesBefore(entries, k)
      invariant forall j :: 0 <= j < k ==> records[j] == RecordFor(entries[j], LongNamesBefore(entries, j), dosName, timestampOf)
    {
      var info := RecordFor(entries[k], existing, dosName, timestampOf);
      LongNamesBeforeNext(entries, k);
      records := records + [info];
      existing := existing + [info.FileName()];
    }
  }

  lemma {:induction false} LongNamesBeforeNext(entries: seq<RemoteEntry>, k: nat)
    requires k < |entries|
    ensures LongNamesBefore(entries, k + 1) == LongNamesBefore(entries, k) + [Lower(NameOf(entries[k].path))]
  {
  }

  /** The scan with the short names fed back: entry `k`'s short name is
      derived from the short names already given to entries `0..k-1`. */
  function ShortNameScan(entries: seq<RemoteEntry>,
                         dosName: (string, seq<string>) -> string, timestampOf: string -> string): (rs: seq<FileInfo>)
    ensures |rs| == |entries|
    decreases |entries|
  {
    if entries == [] then []
    else
      var prev := ShortNameScan(entries[..|entries| - 1], dosName, timestampOf);
      prev + [RecordFor(entries[|entries| - 1], DosNames(prev), dosName, timestampOf)]
  }

  /** Each record of the corrected scan is that of its entry, given the
      short names of the records before it. */
  lemma {:induction false} ShortNameScanAt(entries: seq<RemoteEntry>, k: nat,
                                           dosName: (string, seq<string>) -> string, timestampOf: string -> string)
    requires k < |entries|
    ensures var rs := ShortNameScan(entries, dosName, timestampOf);
      rs[k] == RecordFor(entries[k], DosNames(rs[..k]), dosName, timestampOf)
    decreases |entries|
  {
    var rs := ShortNameScan(entries, dosName, timestampOf);
    var prev := ShortNameScan(entries[..|entries| - 1], dosName, timestampOf);
    if k < |entries| - 1 {
      ShortNameScanAt(entries[..|entries| - 1], k, dosName, timestampOf);
      assert rs[..k] == prev[..k];
    } else {
      assert rs[..k] == prev;
    }
  }

  /** `_scan_ftp_file_list` with each record's short name appended to the
      names the next derivation is given. */
  method ScanFtpFileListByShortName(entries: seq<RemoteEntry>,
                                    dosName: (string, seq<string>) -> string, timestampOf: string -> string)
    returns (records: seq<FileInfo>)
    ensures records == ShortNameScan(entries, dosName, timestampOf)
  {
    var existing: seq<string> := [];
    records := [];
    for k := 0 to |entries|
      invariant records == ShortNameScan(entries[..k], dosName, timestampOf)
      invariant existing == DosNames(records)
    {
      var info := RecordFor(entries[k], existing, dosName, timestampOf);
      ShortNameScanNext(entries, k, dosName, timestampOf);
      DosNamesSnoc(records, info);
      records := records + [info];
      existing := existing + [info.dosname];
    }
    assert entries[..|entries|] == entries;
  }

  lemma {:induction false} ShortNameScanNext(entries: seq<RemoteEntry>, k: nat,
                                             dosName: (string, seq<string>) -> string, timestampOf: string -> string)
    requires k < |entries|
    ensures var prev := ShortNameScan(entries[..k], dosName, timestampOf);
      ShortNameScan(entries[..k + 1], dosName, timestampOf) == prev + [RecordFor(entries[k], DosNames(prev), dosName, timestampOf)]
  {
    assert entries[..k + 1][..k] == entries[..k];
  }

  lemma {:induction false} DosNamesSnoc(rs: seq<FileInfo>, r: FileInfo)
    ensures DosNames(rs + [r]) == DosNames(rs) + [r.dosname]
  {
  }

  /** The library's promise about its short-name derivation: the result,
      lower-cased, is none of the names it was given. */
  ghost predicate AvoidsGiven(dosName: (string, seq<string>) -> string)
  {
    forall n, existing :: Lower(dosName(n, existing)) !in existing
  }

  predicate DistinctDosNames(rs: seq<FileInfo>)
  {
    forall i, j :: 0 <= i < j < |rs| ==> rs[i].dosname != rs[j].dosname
  }

  /** When the short names are fed back, no two records of one scan share
      a short name. */
  lemma {:induction false} ShortNamesDistinct(entries: seq<RemoteEntry>,
                                              dosName: (string, seq<string>) -> string, timestampOf: string -> string)
    requires AvoidsGiven(dosName)
    ensures DistinctDosNames(ShortNameScan(entries, dosName, timestampOf))
    decreases |entries|
  {
    if entries != [] {
      var prev := ShortNameScan(entries[..|entries| - 1], dosName, timestampOf);
      ShortNamesDistinct(entries[..|entries| - 1], dosName, timestampOf);
      var last := RecordFor(entries[|entries| - 1], DosNames(prev), dosName, timestampOf);
      assert last.dosname !in DosNames(prev);
      var rs := prev + [last];
      forall i, j | 0 <= i < j < |rs| ensures rs[i].dosname != rs[j].dosname {
        if j == |rs| - 1 {
          assert DosNames(prev)[i] == rs[i].dosname;
        }
      }
    }
  }

  /** The first six characters of `n`, lower-cased. */
  function ShortStem(n: string): (r: string)
    ensures forall i :: 0 <= i < |r| ==> !IsUpper(r[i])
  {
    Lower(if |n| <= 6 then n else n[..6])
  }

  /** Glues a sequence of strings together. Only the sample helper
      `TildeDosName` below uses it, to build a name longer than every name
      it is given; it models nothing of the library. */
  function Concat(names: seq<string>): (r: string)
    ensures forall i :: 0 <= i < |names| ==> |names[i]| <= |r|
  {
    if names == [] then [] else names[0] + Concat(names[1..])
  }

  /** A short-name derivation in the library's style (six characters of the
      name, then `~1` and the extension); when that name is among the names
      given, it answers with a name longer than all of them. It is not the
      library's algorithm: it only shows that `AvoidsGiven` can be met. */
  function TildeDosName(n: string, existing: seq<string>): string
  {
    var candidate := ShortStem(n) + "~1.3mf";
    if candidate !in existing then candidate else candidate + Concat(existing) + "x"
  }

  lemma {:induction false} LowerOfLowerCase(s: string)
    requires forall i :: 0 <= i < |s| ==> !IsUpper(s[i])
    ensures Lower(s) == s
  {
  }

  lemma {:induction false} TildeDosNameAvoidsGiven()
    ensures AvoidsGiven(TildeDosName)
  {
    forall n, existing ensures Lower(TildeDosName(n, existing)) !in existing {
      var candidate := ShortStem(n) + "~1.3mf";
      LowerOfLowerCase(candidate);
      if candidate in existing {
        var long := candidate + Concat(existing) + "x";
        assert |Lower(long)| == |long| > |Concat(existing)|;
      }
    }
  }

  /** A file listed under `cache/` has its own name. */
  lemma {:induction false} NameInCache(n: string)
    requires IsPart(n)
    ensures NameOf("cache/" + n) == n
  {
    NameOfJoin(["cache", n]);
    assert Join(["cache", n], '/') == "cache/" + n;
  }

  /** The derivation's answer for a lower-case name when its first
      candidate is free. */
  lemma {:induction false} TildeFirstCandidate(n: string, existing: seq<string>)
    requires ShortStem(n) + "~1.3mf" !in existing
    ensures TildeDosName(n, existing) == ShortStem(n) + "~1.3mf"
    ensures Lower(TildeDosName(n, existing)) == TildeDosName(n, existing)
  {
    LowerOfLowerCase(ShortStem(n) + "~1.3mf");
  }

  /** As written, the derivation never sees the short names it handed
      out: two long names with the same first six characters, one in the
      root and one in `cache/` (`longfilename1.3mf` and
      `cache/longfilename2.3mf`, say), both receive the same short name,
      although the derivation keeps the library's promise. Fed back the
      short names, the same scan gives them different short names. */
  lemma {:induction false} LongNameScanRepeatsShortName(n1: string, n2: string, size1: Option<int>, size2: Option<int>,
                                     m1: string, m2: string, timestampOf: string -> string)
    requires IsPart(n1) && IsPart(n2) && Lower(n1) == n1 && Lower(n2) == n2
    requires |n1| >= 6 && |n2| >= 6 && n1[..6] == n2[..6] && '~' !in n1
    ensures AvoidsGiven(TildeDosName)
    ensures var entries := [RemoteEntry(n1, size1, m1), RemoteEntry("cache/" + n2, size2, m2)];
      var asWritten := LongNameScan(entries, TildeDosName, timestampOf);
      var corrected := ShortNameScan(entries, TildeDosName, timestampOf);
      asWritten[0].dosname == asWritten[1].dosname == ShortStem(n1) + "~1.3mf" &&
      corrected[0].dosname != corrected[1].dosname
  {
    TildeDosNameAvoidsGiven();
    var entries := [RemoteEntry(n1, size1, m1), RemoteEntry("cache/" + n2, size2, m2)];
    ParsePart(n1);
    NameInCache(n2);
    var c := ShortStem(n1) + "~1.3mf";
    assert ShortStem(n2) == ShortStem(n1);
    assert c[6] == '~';
    assert c != n1;
    TildeFirstCandidate(n1, []);
    TildeFirstCandidate(n2, [n1]);
    assert LongNamesBefore(entries, 0) == [];
    assert LongNamesBefore(entries, 1) == [n1];
    var asWritten := LongNameScan(entries, TildeDosName, timestampOf);
    assert asWritten[0] == RecordFor(entries[0], [], TildeDosName, timestampOf);
    assert asWritten[1] == RecordFor(entries[1], [n1], TildeDosName, timestampOf);
    ShortNamesDistinct(entries, TildeDosName, timestampOf);
  }

  /** A map built from a sequence, key by key, a later element overwriting
      an earlier one with the same key (a dict comprehension). */
  function BuildMap<T, K, V>(xs: seq<T>, key: T -> K, val: T -> V): (m: map<K, V>)
    ensures m.Keys == set i | 0 <= i < |xs| :: key(xs[i])
    decreases |xs|
  {
    if xs == [] then map[]
    else BuildMap(xs[..|xs| - 1], key, val)[key(xs[|xs| - 1]) := val(xs[|xs| - 1])]
  }

  /** The entry for a key is the value of the last element with that key. */
  lemma {:induction false} BuildMapLastWins<T, K, V>(xs: seq<T>, key: T -> K, val: T -> V, i: nat)
    requires i < |xs|
    requires forall j :: i < j < |xs| ==> key(xs[j]) != key(xs[i])
    ensures key(xs[i]) in BuildMap(xs, key, val) && BuildMap(xs, key, val)[key(xs[i])] == val(xs[i])
    decreases |xs|
  {
    if i < |xs| - 1 {
      BuildMapLastWins(xs[..|xs| - 1], key, val, i);
    }
  }

  /** Every entry of the map comes from some element. */
  lemma {:induction false} BuildMapFrom<T, K, V>(xs: seq<T>, key: T -> K, val: T -> V, k: K)
    requires k in BuildMap(xs, key, val)
    ensures exists i :: 0 <= i < |xs| && key(xs[i]) == k && BuildMap(xs, key, val)[k] == val(xs[i])
    decreases |xs|
  {
    if key(xs[|xs| - 1]) != k {
      BuildMapFrom(xs[..|xs| - 1], key, val, k);
      var i :| 0 <= i < |xs| - 1 && key(xs[..|xs| - 1][i]) == k && BuildMap(xs[..|xs| - 1], key, val)[k] == val(xs[..|xs| - 1][i]);
      assert xs[..|xs| - 1][i] == xs[i];
    }
  }

  function DosNameOf(r: FileInfo): string { r.dosname }
  function FileNameOf(r: FileInfo): string { r.FileName() }
  function Itself(r: FileInfo): FileInfo { r }

  /** The alias cache built by a refresh: short name to file name. */
  function AliasMap(rs: seq<FileInfo>): (r: map<string, string>)
    ensures r.Keys == set i | 0 <= i < |rs| :: rs[i].dosname
    ensures forall d :: d in r ==> exists i :: 0 <= i < |rs| && rs[i].dosname == d && r[d] == rs[i].FileName()
  {
    var m := BuildMap(rs, DosNameOf, FileNameOf);
    assert forall d :: d in m ==> exists i :: 0 <= i < |rs| && rs[i].dosname == d && m[d] == rs[i].FileName() by {
      forall d | d in m
        ensures exists i :: 0 <= i < |rs| && rs[i].dosname == d && m[d] == rs[i].FileName()
      {
        BuildMapFrom(rs, DosNameOf, FileNameOf, d);
      }
    }
    m
  }

  /** The data cache built by a refresh: file name to record. */
  function DataMap(rs: seq<FileInfo>): (r: map<string, FileInfo>)
    ensures r.Keys == set i | 0 <= i < |rs| :: rs[i].FileName()
    ensures forall n :: n in r ==> r[n] in rs && r[n].FileName() == n
  {
    var m := BuildMap(rs, FileNameOf, Itself);
    assert forall n :: n in m ==> m[n] in rs && m[n].FileName() == n by {
      forall n | n in m
        ensures m[n] in rs && m[n].FileName() == n
      {
        BuildMapFrom(rs, FileNameOf, Itself, n);
      }
    }
    m
  }

  /** The key a lookup uses: the lower-cased base name, replaced by its
      alias target when it is a short name. */
  function Resolve(alias: map<string, string>, filePath: string): (r: string)
    ensures r == Lower(NameOf(filePath)) || r in alias.Values
    ensures r != Lower(NameOf(filePath)) ==> Lower(NameOf(filePath)) in alias
    ensures Lower(NameOf(filePath)) in alias ==> r == alias[Lower(NameOf(filePath))]
  {
    var n := Lower(NameOf(filePath));
    if n in alias then alias[n] else n
  }

  /** `_get_file_data`. */
  function Lookup(alias: map<string, string>, data: map<string, FileInfo>, filePath: string): (r: Option<FileInfo>)
    ensures r.Some? <==> Resolve(alias, filePath) in data
    ensures r.Some? ==> r.value == data[Resolve(alias, filePath)]
  {
    var key := Resolve(alias, filePath);
    if key in data then Some(data[key]) else None
  }

  /** A short name and the file name it aliases look up the same record,
      provided the file name is not itself the alias of another name. */
  lemma {:induction false} LookupAliasTransparent(alias: map<string, string>, data: map<string, FileInfo>, d: string, n: string)
    requires IsPart(d) && Lower(d) == d && IsPart(n) && Lower(n) == n
    requires d in alias && alias[d] == n
    requires n !in alias || alias[n] == n
    ensures Lookup(alias, data, d) == Lookup(alias, data, n)
  {
    ParsePart(d);
    ParsePart(n);
  }

  /** With distinct short names, each short name aliases its own
      record's file name. */
  lemma {:induction false} AliasOfScanned(rs: seq<FileInfo>, i: nat)
    requires i < |rs| && DistinctDosNames(rs)
    ensures rs[i].dosname in AliasMap(rs) && AliasMap(rs)[rs[i].dosname] == rs[i].FileName()
  {
    BuildMapLastWins(rs, DosNameOf, FileNameOf, i);
  }

  /** Each scanned file name finds a record with that file name. */
  lemma {:induction false} DataOfScanned(rs: seq<FileInfo>, i: nat)
    requires i < |rs|
    ensures rs[i].FileName() in DataMap(rs) && DataMap(rs)[rs[i].FileName()].FileName() == rs[i].FileName()
  {
    var n := rs[i].FileName();
    assert n == FileNameOf(rs[i]);
    BuildMapFrom(rs, FileNameOf, Itself, n);
  }

  /** A lower-case short name resolves to its record's file name. */
  lemma {:induction false} ResolveDosName(rs: seq<FileInfo>, i: nat)
    requires i < |rs| && DistinctDosNames(rs)
    requires IsPart(rs[i].dosname) && Lower(rs[i].dosname) == rs[i].dosname
    ensures Resolve(AliasMap(rs), rs[i].dosname) == rs[i].FileName()
  {
    AliasOfScanned(rs, i);
    ParsePart(rs[i].dosname);
  }

  /** A file name that is no other name's alias resolves to itself. */
  lemma {:induction false} ResolveFileName(rs: seq<FileInfo>, i: nat)
    requires i < |rs| && WellFormed(rs[i].path)
    requires rs[i].FileName() != ""
    requires rs[i].FileName() !in AliasMap(rs) || AliasMap(rs)[rs[i].FileName()] == rs[i].FileName()
    ensures Resolve(AliasMap(rs), rs[i].FileName()) == rs[i].FileName()
  {
    var n := rs[i].FileName();
    LowerOfLowerCase(n);
    ParsePart(n);
  }

  /** After a scan whose short names are distinct, a record's short name
      finds the last scanned record with the record's file name, and so
      does the file name itself unless it is another file's short name. */
  lemma {:induction false} LookupAfterScan(rs: seq<FileInfo>, i: nat)
    requires i < |rs| && DistinctDosNames(rs) && WellFormed(rs[i].path)
    requires IsPart(rs[i].dosname) && Lower(rs[i].dosname) == rs[i].dosname
    ensures var hit := Lookup(AliasMap(rs), DataMap(rs), rs[i].dosname);
      hit.Some? && hit.value.FileName() == rs[i].FileName() &&
      ((rs[i].FileName() != "" && (rs[i].FileName() !in AliasMap(rs) || AliasMap(rs)[rs[i].FileName()] == rs[i].FileName())) ==>
        Lookup(AliasMap(rs), DataMap(rs), rs[i].FileName()) == hit)
  {
    var n := rs[i].FileName();
    ResolveDosName(rs, i);
    DataOfScanned(rs, i);
    if n != "" && (n !in AliasMap(rs) || AliasMap(rs)[n] == n) {
      ResolveFileName(rs, i);
    }
  }

  /** Whatever a lookup in the refreshed caches finds is a scanned record. */
  lemma {:induction false} LookupFindsScanned(rs: seq<FileInfo>, filePath: string)
    requires Lookup(AliasMap(rs), DataMap(rs), filePath).Some?
    ensures Lookup(AliasMap(rs), DataMap(rs), filePath).value in rs
  {
    var key := Resolve(AliasMap(rs), filePath);
    BuildMapFrom(rs, FileNameOf, Itself, key);
  }

  /** `any(s in allowed for s in path.suffixes)`. */
  predicate HasAllowedSuffix(p: Path, allowed: seq<string>)
  {
    AnyAllowed(Suffixes(Name(p)), allowed)
  }

  /** `any` over `xs`, left to right: some element is in `allowed`. */
  predicate AnyAllowed(xs: seq<string>, allowed: seq<string>)
  {
    xs != [] && (xs[0] in allowed || AnyAllowed(xs[1..], allowed))
  }

  /** The scan `any` does finds an allowed element exactly when there is
      one. */
  lemma {:induction false} AnyAllowedExists(xs: seq<string>, allowed: seq<string>)
    ensures AnyAllowed(xs, allowed) <==> exists s :: s in xs && s in allowed
  {
    if xs != [] {
      AnyAllowedExists(xs[1..], allowed);
      assert forall s :: s in xs <==> s == xs[0] || s in xs[1..];
    }
  }

  /** A project file name is a single component. */
  lemma {:induction false} ProjectNameIsPart(stem: string)
    requires stem != [] && '/' !in stem
    ensures IsPart(stem + ".gcode.3mf")
  {
    assert '/' !in ".gcode.3mf";
  }

  /** The suffixes of `stem.gcode.3mf`. */
  lemma {:induction false} ProjectNameSuffixes(stem: string)
    requires stem != [] && '.' !in stem
    ensures Suffixes(stem + ".gcode.3mf") == [".gcode", ".3mf"]
  {
    assert stem + ".gcode.3mf" == stem + ['.'] + "gcode" + ['.'] + "3mf";
    TwoSuffixes(stem, "gcode", "3mf");
    assert "." + "gcode" == ".gcode" && "." + "3mf" == ".3mf";
  }

  /** A dot-free stem and two dot-free extensions: the suffixes are the
      two extensions, each after its dot. */
  lemma {:induction false} TwoSuffixes(stem: string, first: string, second: string)
    requires stem != [] && '.' !in stem && '.' !in first && second != [] && '.' !in second
    ensures Suffixes(stem + ['.'] + first + ['.'] + second) == ["." + first, "." + second]
  {
    var name := stem + ['.'] + first + ['.'] + second;
    SplitTwoDots(stem, first, second);
    SuffixesOfSplit(name, [stem, first, second]);
    assert [stem, first, second][1..] == [first, second];
    var d := Dotted([first, second]);
    assert d[0] == "." + first && d[1] == "." + second;
  }

  /** The pieces of `stem.first.second`, which starts with the stem and
      ends with the second extension. */
  lemma {:induction false} SplitTwoDots(stem: string, first: string, second: string)
    requires stem != [] && '.' !in stem && '.' !in first && second != [] && '.' !in second
    ensures var name := stem + ['.'] + first + ['.'] + second;
      Split(name, '.') == [stem, first, second] && name[0] == stem[0] && name[|name| - 1] == second[|second| - 1]
  {
    var name := stem + ['.'] + first + ['.'] + second;
    var tail := first + ['.'] + second;
    assert name == stem + ['.'] + tail;
    SplitField(stem, tail, '.');
    SplitField(first, second, '.');
    SplitJoin([second], '.');
  }

  /** A project file `stem.gcode.3mf` is accepted through its `.3mf`
      suffix; the compound `.gcode.3mf` in the allowed list never matches
      by itself. */
  lemma {:induction false} ProjectFileSuffixes(stem: string, dirs: seq<string>)
    requires stem != [] && '.' !in stem && '/' !in stem
    requires forall i :: 0 <= i < |dirs| ==> IsPart(dirs[i])
    ensures var p := Parse(Join(dirs + [stem + ".gcode.3mf"], '/'));
      Suffixes(Name(p)) == [".gcode", ".3mf"] &&
      HasAllowedSuffix(p, [".3mf", ".gcode.3mf"]) && ".gcode.3mf" !in Suffixes(Name(p))
  {
    var name := stem + ".gcode.3mf";
    ProjectNameIsPart(stem);
    ProjectNameSuffixes(stem);
    var parts := dirs + [name];
    NameOfJoin(parts);
    var p := Parse(Join(parts, '/'));
    assert Name(p) == name;
    var suffixes := Suffixes(name);
    assert suffixes == [".gcode", ".3mf"];
    assert ".gcode.3mf" !in suffixes by {
      assert |".gcode.3mf"| != |".gcode"| && |".gcode.3mf"| != |".3mf"|;
    }
    SuffixAllowed(suffixes, [".3mf", ".gcode.3mf"]);
  }

  /** `.gcode` is not allowed, `.3mf` is. */
  lemma {:induction false} SuffixAllowed(suffixes: seq<string>, allowed: seq<string>)
    requires suffixes == [".gcode", ".3mf"] && allowed == [".3mf", ".gcode.3mf"]
    ensures AnyAllowed(suffixes, allowed)
  {
    assert suffixes[1..] == [".3mf"];
    assert AnyAllowed(suffixes[1..], allowed);
  }

  /** The inventory of the printer's files (`RemoteSDCardFileList`). */
  class RemoteSDCardFileList {
    var aliasCache: map<string, string>
    var dataCache: map<string, FileInfo>
    var selected: Option<FileInfo>
    /** The library's short-name derivation and timestamp conversion. */
    const dosName: (string, seq<string>) -> string
    const timestampOf: string -> string

    constructor (dosName: (string, seq<string>) -> string, timestampOf: string -> string)
      ensures aliasCache == map[] && dataCache == map[] && selected == None
      ensures this.dosName == dosName && this.timestampOf == timestampOf
    {
      aliasCache, dataCache, selected := map[], map[], None;
      this.dosName, this.timestampOf := dosName, timestampOf;
    }

    /** `_get_file_data`: the record a name resolves to, if any. */
    function GetFileData(filePath: string): (r: Option<FileInfo>)
      reads this`aliasCache, this`dataCache
      ensures r.Some? ==> r.value in dataCache.Values
      ensures r.Some? <==> Resolve(aliasCache, filePath) in dataCache
    {
      Lookup(aliasCache, dataCache, filePath)
    }

    /** `_update_existing_files_info`: scans, then replaces both caches
        together; a transport failure leaves both as they were. */
    method UpdateExistingFilesInfo(listing: Listing) returns (ok: bool)
      modifies this`aliasCache, this`dataCache
      ensures ok <==> listing.Listed?
      ensures !ok ==> aliasCache == old(aliasCache) && dataCache == old(dataCache)
      ensures ok ==> var rs := ShortNameScan(ScannedEntries(listing), dosName, timestampOf);
        aliasCache == AliasMap(rs) && dataCache == DataMap(rs)
    {
      if listing.TransportError? {
        return false;
      }
      var records := ScanFtpFileListByShortName(ScannedEntries(listing), dosName, timestampOf);
      aliasCache := AliasMap(records);
      dataCache := DataMap(records);
      ok := true;
    }

    /** `get_data_by_suffix`: the record a name resolves to, when one of
        the single suffixes of its path is allowed. */
    function GetDataBySuffix(filePath: string, allowed: seq<string>): (r: Option<FileInfo>)
      reads this`aliasCache, this`dataCache
      ensures r.Some? <==> GetFileData(filePath).Some? && HasAllowedSuffix(GetFileData(filePath).value.path, allowed)
      ensures r.Some? ==> r == GetFileData(filePath)
    {
      var data := GetFileData(filePath);
      if data.None? then None
      else if HasAllowedSuffix(data.value.path, allowed) then data
      else None
    }

    /** `select_file`: fails on a lookup miss; otherwise selects the
        record, unless `checkAlreadyOpen` is set and a record with the same
        path is selected already. */
    method SelectFile(filePath: string, checkAlreadyOpen: bool) returns (ok: bool)
      modifies this`selected
      ensures ok <==> GetFileData(filePath).Some?
      ensures !ok ==> selected == old(selected)
      ensures ok && checkAlreadyOpen && old(selected).Some? && old(selected).value.path == GetFileData(filePath).value.path
        ==> selected == old(selected)
      ensures ok && !(checkAlreadyOpen && old(selected).Some? && old(selected).value.path == GetFileData(filePath).value.path)
        ==> selected == GetFileData(filePath)
    {
      var fileName := NameOf(filePath);
      NameOfName(filePath);
      var info := GetFileData(fileName);
      if info.None? {
        return false;
      }
      if selected.Some? && selected.value.path == info.value.path && checkAlreadyOpen {
        return true;
      }
      selected := info;
      ok := true;
    }

    /** `delete_file`: asks the transport to delete the resolved file's
        path, only when the name resolves; never fails and changes neither
        cache nor the selection. Returns the path it asked to delete. */
    method DeleteFile(filePath: string) returns (request: Option<string>)
      ensures request.Some? <==> GetFileData(filePath).Some?
      ensures request.Some? ==> request.value == AsPosix(GetFileData(filePath).value.path)
    {
      var info := GetFileData(filePath);
      if info.Some? {
        request := Some(AsPosix(info.value.path));
      } else {
        request := None;
      }
    }

    /** The evident intent of the call at printing_state.py:30 to
        `remove_file_selection`, a method the inventory does not define:
        forgets the selection. */
    method RemoveFileSelection()
      modifies this`selected
      ensures selected == None
    {
      selected := None;
    }
  }
}

/** File names in the ZIP of a message's attachments (backend/src/routes/mail.js, /attachments.zip). */
module ArchiveNames {

  /** An attachment with its file name as safeFilename answers it. */
  datatype Attachment = Attachment(part: string, filename: string)

  datatype ZipEntry = ZipEntry(name: string, content: seq<int>)

  // ---- numbers as text ----------------------------------------------------------------------------

  function Digit(d: nat): char
    requires d < 10
  {
    ['0', '1', '2', '3', '4', '5', '6', '7', '8', '9'][d]
  }

  function Decimal(n: nat): (s: string)
    ensures s != ""
  {
    if n < 10 then [Digit(n)] else Decimal(n / 10) + [Digit(n % 10)]
  }

  lemma DigitInjective(a: nat, b: nat)
    requires a < 10 && b < 10 && Digit(a) == Digit(b)
    ensures a == b
  {
  }

  /** Different numbers have different texts. */
  lemma {:induction false} DecimalInjective(n: nat, m: nat)
    requires Decimal(n) == Decimal(m)
    ensures n == m
  {
    var s := Decimal(n);
    assert s[|s| - 1] == Digit(n % 10) && s[|s| - 1] == Digit(m % 10);
    DigitInjective(n % 10, m % 10);
    if n >= 10 && m >= 10 {
      assert s[..|s| - 1] == Decimal(n / 10) == Decimal(m / 10);
      DecimalInjective(n / 10, m / 10);
    }
  }

  // ---- names --------------------------------------------------------------------------------------

  /** Colons become underscores. */
  function NoColons(s: string): string {
    seq(|s|, i requires 0 <= i < |s| => if s[i] == ':' then '_' else s[i])
  }

  /** s.lastIndexOf('.') */
  function LastDot(s: string): (n: int)
    ensures -1 <= n < |s| && (n >= 0 ==> s[n] == '.') && forall i :: n < i < |s| ==> s[i] != '.'
  {
    if s == "" then -1 else if s[|s| - 1] == '.' then |s| - 1 else LastDot(s[..|s| - 1])
  }

  /** The n-th name tried for original: the number goes before the extension, if there is one. */
  function Candidate(original: string, n: nat): string {
    var dot := LastDot(original);
    if dot > 0 then original[..dot] + " (" + Decimal(n) + ")" + original[dot..] else original + " (" + Decimal(n) + ")"
  }

  /** The candidates for one name differ from each other and from the name itself. */
  lemma CandidatesDiffer(original: string, n: nat, m: nat)
    ensures Candidate(original, n) != original
    ensures n != m ==> Candidate(original, n) != Candidate(original, m)
  {
    var a, b := Candidate(original, n), Candidate(original, m);
    assert |a| == |original| + 3 + |Decimal(n)| && |b| == |original| + 3 + |Decimal(m)|;
    if a == b {
      var dot := LastDot(original);
      var from := 2 + if dot > 0 then dot else |original|;
      assert a[from..from + |Decimal(n)|] == Decimal(n);
      assert b[from..from + |Decimal(m)|] == Decimal(m);
      DecimalInjective(n, m);
    }
  }

  /** name is the first of original, "original (2)", "original (3)", ... that is not used. */
  ghost predicate FirstFree(used: set<string>, original: string, name: string) {
    && name !in used
    && (name == original ||
        (original in used && exists k: nat ::
           k >= 2 && name == Candidate(original, k) && forall j: nat :: 2 <= j < k ==> Candidate(original, j) in used))
  }

  /** x is one of the first names tried, before the n-th candidate. */
  ghost predicate Tried(original: string, n: nat, x: string) {
    x == original || exists j: nat :: 2 <= j < n && x == Candidate(original, j)
  }

  lemma NextIsNew(original: string, n: nat)
    requires n >= 2
    ensures !Tried(original, n, Candidate(original, n))
    ensures forall x :: Tried(original, n + 1, x) <==> Tried(original, n, x) || x == Candidate(original, n)
  {
    hide Candidate;
    CandidatesDiffer(original, n, n);
    forall j: nat | 2 <= j < n
      ensures Candidate(original, n) != Candidate(original, j)
    {
      CandidatesDiffer(original, n, j);
    }
  }

  /** The renaming loop ends, for every set of used names: each round meets another of them. */
  method FreeName(used: set<string>, original: string) returns (name: string)
    ensures FirstFree(used, original, name)
    ensures original !in used ==> name == original
  {
    hide Candidate, Tried;
    name := original;
    var n := 2;
    ghost var met: set<string> := {};
    assert Tried(original, 2, original) by { TriedFirst(original); }
    while name in used
      invariant n >= 2 && met <= used && name !in met
      invariant if n == 2 then name == original && met == {} else name == Candidate(original, n - 1) && original in used
      invariant forall j: nat :: 2 <= j < n - 1 ==> Candidate(original, j) in used
      invariant forall x :: x in met || x == name ==> Tried(original, n, x)
      decreases used - met
    {
      NextIsNew(original, n);
      met := met + {name};
      name := Candidate(original, n);
      n := n + 1;
    }
    assert n > 2 ==> name == Candidate(original, n - 1);
  }

  lemma TriedFirst(original: string)
    ensures forall x :: Tried(original, 2, x) <==> x == original
  {
  }

  // ---- the archive --------------------------------------------------------------------------------

  /** The attachments that were fetched, in order. */
  function Fetched(attachments: seq<Attachment>, buffers: map<string, seq<int>>): seq<Attachment> {
    if attachments == [] then []
    else
      var last := attachments[|attachments| - 1];
      Fetched(attachments[..|attachments| - 1], buffers) + if last.part in buffers then [last] else []
  }

  function Names(entries: seq<ZipEntry>): set<string> {
    set i | 0 <= i < |entries| :: entries[i].name
  }

  /** One entry per fetched attachment, in order, with its content, each under the first name that was still
      free. */
  ghost predicate Archives(fetched: seq<Attachment>, buffers: map<string, seq<int>>, entries: seq<ZipEntry>) {
    && |entries| == |fetched|
    && forall i :: 0 <= i < |entries| ==>
         && fetched[i].part in buffers && entries[i].content == buffers[fetched[i].part]
         && FirstFree(Names(entries[..i]), NoColons(fetched[i].filename), entries[i].name)
  }

  /** Names in an archive are pairwise distinct, and a name that was free is kept. */
  lemma ArchivedNames(fetched: seq<Attachment>, buffers: map<string, seq<int>>, entries: seq<ZipEntry>)
    requires Archives(fetched, buffers, entries)
    ensures forall i, j :: 0 <= i < j < |entries| ==> entries[i].name != entries[j].name
    ensures forall i :: 0 <= i < |entries| && NoColons(fetched[i].filename) !in Names(entries[..i]) ==>
      entries[i].name == NoColons(fetched[i].filename)
  {
    forall i, j | 0 <= i < j < |entries|
      ensures entries[i].name != entries[j].name
    {
      assert entries[..j][i].name in Names(entries[..j]);
    }
  }

  method ArchiveEntries(attachments: seq<Attachment>, buffers: map<string, seq<int>>) returns (entries: seq<ZipEntry>)
    ensures Archives(Fetched(attachments, buffers), buffers, entries)
  {
    var usedNames: set<string> := {};
    entries := [];
    for i := 0 to |attachments|
      invariant usedNames == Names(entries)
      invariant Archives(Fetched(attachments[..i], buffers), buffers, entries)
    {
      var attachment := attachments[i];
      assert attachments[..i + 1][..i] == attachments[..i];
      if attachment.part in buffers {
        var name := FreeName(usedNames, NoColons(attachment.filename));
        usedNames := usedNames + {name};
        ghost var before := entries;
        entries := entries + [ZipEntry(name, buffers[attachment.part])];
        assert forall n :: 0 <= n <= |before| ==> entries[..n] == before[..n];
        assert before[..|before|] == before;
        NamesMore(before, entries[|before|]);
      }
    }
    assert attachments[..|attachments|] == attachments;
  }

  lemma NamesMore(entries: seq<ZipEntry>, entry: ZipEntry)
    ensures Names(entries + [entry]) == Names(entries) + {entry.name}
  {
    var more := entries + [entry];
    forall x | x in Names(entries) + {entry.name}
      ensures x in Names(more)
    {
      if x in Names(entries) {
        var i :| 0 <= i < |entries| && entries[i].name == x;
        assert more[i].name == x;
      } else {
        assert more[|entries|].name == x;
      }
    }
  }
}

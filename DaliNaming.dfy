/** The DALI naming scheme (test_dali_naming.py): four-character identifiers over digits and
    upper-case letters, never reused within one set of used identifiers; DALI file names
    `pdb<ID>.ent`; the tab-separated mapping file and the plain list file. Which unused
    identifier `random.choices` hits is a free choice of the model. */
module DaliNaming {
  import opened Text

  /** `string.digits + string.ascii_uppercase`: the characters an identifier is made of. */
  predicate IsIdChar(c: char) {
    '0' <= c <= '9' || 'A' <= c <= 'Z'
  }

  /** The identifier format `^[0-9A-Z]{4}$`. */
  predicate IsPdbId(s: string) {
    |s| == 4 && forall i | 0 <= i < 4 :: IsIdChar(s[i])
  }

  /** The number of different identifiers: 36 characters in each of 4 places. */
  const IdCount: nat := 36 * 36 * 36 * 36

  /** Character number `d` of `chars`. */
  function IdChar(d: nat): (c: char)
    requires d < 36
    ensures IsIdChar(c) && IdDigit(c) == d
  {
    if d < 10 then ('0' as int + d) as char else ('A' as int + d - 10) as char
  }

  /** The position of a character in `chars`. */
  function IdDigit(c: char): nat
    requires IsIdChar(c)
  {
    if '0' <= c <= '9' then (c as int - '0' as int) else (c as int - 'A' as int + 10)
  }

  function Pow36(n: nat): (p: nat)
    ensures p >= 1
  {
    if n == 0 then 1 else 36 * Pow36(n - 1)
  }

  /** The last `n` base-36 digits of `k`, written with `chars`. */
  function Base36(k: nat, n: nat): (s: string)
    ensures |s| == n && forall i | 0 <= i < n :: IsIdChar(s[i])
  {
    if n == 0 then [] else Base36(k / 36, n - 1) + [IdChar(k % 36)]
  }

  /** The number a string over `chars` stands for in base 36. */
  function Decode(s: string): nat
    requires forall i | 0 <= i < |s| :: IsIdChar(s[i])
  {
    if s == [] then 0 else Decode(s[..|s| - 1]) * 36 + IdDigit(s[|s| - 1])
  }

  lemma {:induction false} DecodeBase36(k: nat, n: nat)
    requires k < Pow36(n)
    ensures Decode(Base36(k, n)) == k
  {
    if n > 0 {
      DecodeBase36(k / 36, n - 1);
      var s := Base36(k, n);
      assert s[..|s| - 1] == Base36(k / 36, n - 1);
    }
  }

  /** Identifier number `k`; every identifier is one of these (`EveryIdNumbered`). */
  function IdOf(k: nat): (id: string)
    ensures IsPdbId(id)
  {
    Base36(k, 4)
  }

  lemma {:induction false} EncodeDecode(s: string)
    requires forall i | 0 <= i < |s| :: IsIdChar(s[i])
    ensures Decode(s) < Pow36(|s|) && Base36(Decode(s), |s|) == s
  {
    if s != [] {
      var init, c := s[..|s| - 1], s[|s| - 1];
      EncodeDecode(init);
      var k := Decode(s);
      assert k / 36 == Decode(init) && k % 36 == IdDigit(c);
      assert IdChar(IdDigit(c)) == c;
      assert s == init + [c];
    }
  }

  /** The identifiers are exactly the numbered ones: each is `IdOf` of a number below `IdCount`. */
  lemma {:induction false} EveryIdNumbered(id: string)
    requires IsPdbId(id)
    ensures exists k | 0 <= k < IdCount :: IdOf(k) == id
  {
    EncodeDecode(id);
    assert Pow36(4) == IdCount;
    assert IdOf(Decode(id)) == id;
  }

  /** The first `n` identifiers. */
  function Enumerated(n: nat): set<string> {
    set k | 0 <= k < n :: IdOf(k)
  }

  lemma {:induction false} EnumeratedSize(n: nat)
    requires n <= IdCount
    ensures |Enumerated(n)| == n
  {
    if n > 0 {
      EnumeratedSize(n - 1);
      var id := IdOf(n - 1);
      assert Enumerated(n) == Enumerated(n - 1) + {id};
      assert Pow36(4) == IdCount by {
        assert Pow36(2) == 36 * 36;
      }
      if id in Enumerated(n - 1) {
        var k :| 0 <= k < n - 1 && IdOf(k) == id;
        DecodeBase36(k, 4);
        DecodeBase36(n - 1, 4);
      }
    }
  }

  lemma {:induction false} SubsetSize(a: set<string>, b: set<string>)
    requires a <= b
    ensures |a| <= |b|
    decreases |a|
  {
    if a != {} {
      var x :| x in a;
      SubsetSize(a - {x}, b - {x});
    }
  }

  /** Pigeonhole: while fewer than 36^4 identifiers are used, one is still free, so the
      drawing loop can end. */
  lemma {:induction false} SomeIdFree(used: set<string>)
    requires |used| < IdCount
    ensures exists k | 0 <= k < IdCount :: IdOf(k) !in used
  {
    if forall k | 0 <= k < IdCount :: IdOf(k) in used {
      EnumeratedSize(IdCount);
      SubsetSize(Enumerated(IdCount), used);
      assert false;
    }
  }

  /** The `used_ids` set shared by the calls of `generate_pdb_id`. */
  class UsedIds {
    var used: set<string>

    constructor ()
      ensures used == {}
    {
      used := {};
    }

    /** `generate_pdb_id`: an identifier not used before, which is now used. */
    method GeneratePdbId() returns (id: string)
      requires exists k :: 0 <= k < IdCount && IdOf(k) !in used
      modifies this
      ensures IsPdbId(id) && id !in old(used)
      ensures used == old(used) + {id} && |used| == |old(used)| + 1
    {
      var k :| 0 <= k < IdCount && IdOf(k) !in used;
      id := IdOf(k);
      used := used + {id};
    }

    /** The loop of the first test: `n` calls in a row give `n` well-formed, pairwise
        different identifiers, all of them new and now used. */
    method GenerateIds(n: nat) returns (ids: seq<string>)
      requires |used| + n <= IdCount
      modifies this
      ensures |ids| == n && forall i | 0 <= i < n :: IsPdbId(ids[i]) && ids[i] !in old(used) && ids[i] in used
      ensures forall i, j | 0 <= i < j < n :: ids[i] != ids[j]
      ensures old(used) <= used && |used| == |old(used)| + n
    {
      ids := [];
      for k := 0 to n
        invariant |ids| == k && forall i | 0 <= i < k :: IsPdbId(ids[i]) && ids[i] !in old(used) && ids[i] in used
        invariant forall i, j | 0 <= i < j < k :: ids[i] != ids[j]
        invariant old(used) <= used && |used| == |old(used)| + k
      {
        SomeIdFree(used);
        var id := GeneratePdbId();
        ids := ids + [id];
      }
    }

    /** The loop of the second test: every original file gets a fresh DALI name, in order. */
    method ConvertNames(originals: seq<string>) returns (mapping: seq<(string, string)>)
      requires |used| + |originals| <= IdCount
      modifies this
      ensures |mapping| == |originals|
      ensures forall i | 0 <= i < |mapping| :: IsDaliName(mapping[i].0) && mapping[i].1 == originals[i]
      ensures forall i, j | 0 <= i < j < |mapping| :: mapping[i].0 != mapping[j].0
      ensures forall i | 0 <= i < |mapping| ::
        |mapping[i].0| == 11 && mapping[i].0[3..7] !in old(used) && mapping[i].0[3..7] in used
      ensures old(used) <= used && |used| == |old(used)| + |originals|
    {
      mapping := [];
      ghost var ids: seq<string> := [];
      for k := 0 to |originals|
        invariant |mapping| == k && |ids| == k
        invariant forall i | 0 <= i < k :: IsPdbId(ids[i]) && mapping[i] == (DaliName(ids[i]), originals[i])
        invariant forall i | 0 <= i < k :: ids[i] in used && ids[i] !in old(used)
        invariant forall i, j | 0 <= i < j < k :: ids[i] != ids[j]
        invariant old(used) <= used && |used| == |old(used)| + k
      {
        SomeIdFree(used);
        var id := GeneratePdbId();
        mapping := mapping + [(DaliName(id), originals[k])];
        ids := ids + [id];
      }
      forall i, j | 0 <= i < j < |mapping| ensures mapping[i].0 != mapping[j].0 {
        DaliNameInjective(ids[i], ids[j]);
      }
    }
  }

  /** The DALI name format `^pdb[0-9A-Z]{4}\.ent$`. */
  predicate IsDaliName(s: string) {
    |s| == 11 && s[..3] == "pdb" && IsPdbId(s[3..7]) && s[7..] == ".ent"
  }

  /** `f"pdb{pdb_id}.ent"`: well formed for a well-formed identifier, which can be read back. */
  function DaliName(id: string): (name: string)
    ensures |name| == |id| + 7
    ensures IsPdbId(id) ==> IsDaliName(name)
    ensures |id| == 4 ==> name[3..7] == id
  {
    "pdb" + id + ".ent"
  }

  lemma {:induction false} DaliNameInjective(a: string, b: string)
    requires IsPdbId(a) && IsPdbId(b) && a != b
    ensures DaliName(a) != DaliName(b)
  {
    assert DaliName(a)[3..7] == a && DaliName(b)[3..7] == b;
  }

  // ---------------------------------------------------------------- mapping and list files

  /** A line as `readlines` returns it: one newline, at its end. */
  predicate IsLine(l: string) {
    l != [] && l[|l| - 1] == '\n' && forall k | 0 <= k < |l| - 1 :: l[k] != '\n'
  }

  predicate NoChar(s: string, c: char) {
    forall k | 0 <= k < |s| :: s[k] != c
  }

  lemma {:induction false} ConcatCons(l: string, rest: seq<string>)
    ensures Concat([l] + rest) == l + Concat(rest)
  {
    if rest != [] {
      var init := rest[..|rest| - 1];
      ConcatCons(l, init);
      assert ([l] + rest)[..|rest|] == [l] + init;
    } else {
      assert [l] + rest == [l];
      assert Concat([l]) == Concat([]) + l;
    }
  }

  /** Writing lines one after another and reading the file back gives the same lines. */
  lemma {:induction false} ReadConcatLines(lines: seq<string>)
    requires forall i | 0 <= i < |lines| :: IsLine(lines[i])
    ensures ReadLines(Concat(lines)) == lines
    decreases |lines|
  {
    if lines != [] {
      ReadConcatLines(lines[1..]);
      ConcatCons(lines[0], lines[1..]);
      assert [lines[0]] + lines[1..] == lines;
      ReadLinesStep(lines[0], Concat(lines[1..]));
    }
  }

  const MappingHeader: string := "DALI_Name\tOriginal_Name\n"

  function MappingLine(p: (string, string)): string {
    p.0 + "\t" + p.1 + "\n"
  }

  /** One line per pair, in order. */
  function PairLines(m: seq<(string, string)>): (ls: seq<string>)
    ensures |ls| == |m| && forall i | 0 <= i < |m| :: ls[i] == MappingLine(m[i])
  {
    if m == [] then [] else PairLines(m[..|m| - 1]) + [MappingLine(m[|m| - 1])]
  }

  /** The lines of `pdb_id_mapping.tsv`: the header, then one line per pair. */
  function MappingLines(m: seq<(string, string)>): seq<string> {
    [MappingHeader] + PairLines(m)
  }

  /** The writes into the mapping file. */
  method WriteMapping(m: seq<(string, string)>) returns (text: string)
    ensures text == Concat(MappingLines(m))
  {
    text := MappingHeader;
    assert Concat([MappingHeader]) == Concat([]) + MappingHeader;
    for k := 0 to |m|
      invariant text == Concat([MappingHeader] + PairLines(m[..k]))
    {
      assert m[..k + 1][..k] == m[..k];
      assert [MappingHeader] + PairLines(m[..k + 1]) == ([MappingHeader] + PairLines(m[..k])) + [MappingLine(m[k])];
      text := text + MappingLine(m[k]);
    }
    assert m[..|m|] == m;
  }

  /** A pair of names without newlines makes one line. */
  lemma {:induction false} MappingLineIsLine(a: string, b: string)
    requires NoChar(a, '\n') && NoChar(b, '\n')
    ensures IsLine(MappingLine((a, b)))
  {
    var l := MappingLine((a, b));
    forall k | 0 <= k < |l| - 1 ensures l[k] != '\n' {
      if k < |a| {
        assert l[k] == a[k];
      } else if k > |a| {
        assert l[k] == b[k - |a| - 1];
      }
    }
  }

  /** Cutting a mapping line (without its newline) at the tab gives the pair back. */
  function ParseMappingLine(l: string): seq<string>
    requires l != []
  {
    Split(l[..|l| - 1], '\t')
  }

  lemma {:induction false} ParseMappingLineInverse(a: string, b: string)
    requires NoChar(a, '\t') && NoChar(b, '\t')
    ensures ParseMappingLine(MappingLine((a, b))) == [a, b]
  {
    var l := MappingLine((a, b));
    assert l[..|l| - 1] == a + ['\t'] + b;
    SplitAt(a, b, '\t');
    SplitWhole(b, '\t');
  }

  /** Read back, the mapping file has one line more than there are pairs, the header first and
      then every pair in order; for names without tabs each line splits back into its pair. */
  lemma {:induction false} MappingRoundTrip(m: seq<(string, string)>)
    requires forall i | 0 <= i < |m| :: NoChar(m[i].0, '\n') && NoChar(m[i].1, '\n')
    ensures ReadLines(Concat(MappingLines(m))) == MappingLines(m)
    ensures |ReadLines(Concat(MappingLines(m)))| == |m| + 1
    ensures forall i | 0 <= i < |m| && NoChar(m[i].0, '\t') && NoChar(m[i].1, '\t') ::
              ParseMappingLine(MappingLines(m)[i + 1]) == [m[i].0, m[i].1]
  {
    var ls := MappingLines(m);
    MappingLinesAreLines(m);
    ReadConcatLines(ls);
    forall i | 0 <= i < |m| && NoChar(m[i].0, '\t') && NoChar(m[i].1, '\t')
      ensures ParseMappingLine(ls[i + 1]) == [m[i].0, m[i].1]
    {
      assert ls[i + 1] == MappingLine(m[i]);
      ParseMappingLineInverse(m[i].0, m[i].1);
    }
  }

  /** The header and every pair of names without newlines each make one line. */
  lemma {:induction false} MappingLinesAreLines(m: seq<(string, string)>)
    requires forall i | 0 <= i < |m| :: NoChar(m[i].0, '\n') && NoChar(m[i].1, '\n')
    ensures forall i | 0 <= i < |MappingLines(m)| :: IsLine(MappingLines(m)[i])
  {
    var ls := MappingLines(m);
    forall i | 0 <= i < |ls| ensures IsLine(ls[i]) {
      if i > 0 {
        assert ls[i] == MappingLine(m[i - 1]);
        MappingLineIsLine(m[i - 1].0, m[i - 1].1);
      }
    }
  }

  /** The lines of `pdb_list.txt`: one name per line. */
  function ListLines(names: seq<string>): (ls: seq<string>)
    ensures |ls| == |names| && forall i | 0 <= i < |names| :: ls[i] == names[i] + "\n"
  {
    seq(|names|, i requires 0 <= i < |names| => names[i] + "\n")
  }

  /** The writes into the list file. */
  method WriteList(names: seq<string>) returns (text: string)
    ensures text == Concat(ListLines(names))
  {
    text := "";
    for k := 0 to |names|
      invariant text == Concat(ListLines(names[..k]))
    {
      assert ListLines(names[..k + 1]) == ListLines(names[..k]) + [names[k] + "\n"];
      text := text + names[k] + "\n";
    }
    assert names[..|names|] == names;
  }

  /** `[line.strip() for line in lines]`. */
  function StripAll(lines: seq<string>): (r: seq<string>)
    ensures |r| == |lines| && forall i | 0 <= i < |lines| :: r[i] == Strip(lines[i])
  {
    seq(|lines|, i requires 0 <= i < |lines| => Strip(lines[i]))
  }

  predicate NoSpace(s: string) {
    forall k | 0 <= k < |s| :: !IsSpace(s[k])
  }

  lemma {:induction false} StripNewline(n: string)
    requires NoSpace(n)
    ensures Strip(n + "\n") == n
  {
    var s := n + "\n";
    var a := SpacesFrom(s, 0);
    if n == [] {
      assert a == 1;
    } else {
      assert s[0] == n[0];
      assert a == 0;
      assert LStrip(s) == s;
      var b := SpacesBefore(s, |s|);
      assert s[|s| - 2] == n[|n| - 1];
      assert b == 1;
      assert s[..|s| - 1] == n;
    }
  }

  /** Names without white space come back from the list file unchanged and in order. */
  lemma {:induction false} ListRoundTrip(names: seq<string>)
    requires forall i | 0 <= i < |names| :: NoSpace(names[i])
    ensures StripAll(ReadLines(Concat(ListLines(names)))) == names
  {
    var ls := ListLines(names);
    forall i | 0 <= i < |ls| ensures IsLine(ls[i]) {
      assert '\n' != ' ' && IsSpace('\n');
    }
    ReadConcatLines(ls);
    forall i | 0 <= i < |names| ensures Strip(ls[i]) == names[i] {
      StripNewline(names[i]);
    }
  }

  /** DALI names contain no white space, so a list of them survives the list file. */
  lemma {:induction false} DaliNamesSurviveList(names: seq<string>)
    requires forall i | 0 <= i < |names| :: IsDaliName(names[i])
    ensures StripAll(ReadLines(Concat(ListLines(names)))) == names
  {
    forall i | 0 <= i < |names| ensures NoSpace(names[i]) {
      var s := names[i];
      forall k | 0 <= k < |s| ensures !IsSpace(s[k]) {
        if 3 <= k < 7 {
          assert s[3..7][k - 3] == s[k];
        } else if k < 3 {
          assert s[..3][k] == s[k];
        } else {
          assert s[7..][k - 7] == s[k];
        }
      }
    }
    ListRoundTrip(names);
  }
}

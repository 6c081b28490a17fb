/**
 * The gender swap of build.py: when the book is rendered with the roles reversed, every
 * gendered term and every gendered character abbreviation of a line is replaced by its
 * opposite.  Two tables drive it, both built from lists of pairs: the abbreviation table,
 * which maps each abbreviation to its partner and back, and the term table, in which a "*"
 * marks a member that is only ever a target.  A line is cut into words and separators and
 * each word is looked up, with per-line hints settling the ambiguous words "her",
 * "husband", "mistress" and "U".
 */
module GenderSwap {
  import opened Outcomes
  import opened Strings

  /**
   * The gendered terms as build.py lists them, male form first (build.py:20-78), written in
   * runs of five pairs (the last run has four) so that proofs about the list can take it a
   * run at a time.
   */
  const GenderedTerms: seq<(string, string)> :=
    (TermsPart0 + TermsPart1) + (TermsPart2 + TermsPart3) + (TermsPart4 + TermsPart5) + (TermsPart6 + TermsPart7)

  const TermsPart0: seq<(string, string)> := [
    ("adventurer", "adventuress"), ("brother", "sister"), ("brothers", "sisters"),
    ("boy", "girl"), ("clergyman", "clergywoman")
  ]
  const TermsPart1: seq<(string, string)> := [
    ("cowboy", "cowgirl"), ("craftsman", "craftswoman"), ("father", "mother"),
    ("fatherhood", "motherhood"), ("fathers", "mothers")
  ]
  const TermsPart2: seq<(string, string)> := [
    ("foreman", "forewoman"), ("frontiersman", "frontierswoman"), ("gentleman", "lady"),
    ("*gentlemen's", "ladies_poss"), ("gentlemen", "ladies")
  ]
  const TermsPart3: seq<(string, string)> := [
    ("grandfather", "grandmother"), ("he", "she"), ("highwayman", "highwaywoman"),
    ("him", "*her"), ("himself", "herself")
  ]
  const TermsPart4: seq<(string, string)> := [
    ("husband", "wife"), ("his", "*her"), ("male", "female"), ("man", "woman"),
    ("man-hater", "woman-hater")
  ]
  const TermsPart5: seq<(string, string)> := [
    ("mankind", "womankind"), ("manly", "womanly"), ("manservant", "maid"), ("men", "women"),
    ("misogynist", "misandrist")
  ]
  const TermsPart6: seq<(string, string)> := [
    ("*lover", "mistress"), ("nephew", "niece"), ("paternal", "maternal"),
    ("policeman", "policewoman"), ("son", "daughter")
  ]
  const TermsPart7: seq<(string, string)> := [
    ("stepfather", "stepmother"), ("uncle", "aunt"), ("*unmarried", "maiden"),
    ("widower", "widow")
  ]

  /** The gendered character abbreviations (build.py:82-90). */
  const GenderedChars: seq<(string, string)> := [
    ("F", "M"),
    ("BR", "SR"),
    ("SN", "D"),
    ("U", "AU"),
    ("NW", "NC"),
    ("GF", "GM"),
    ("SF", "SM")
  ]

  // ---------------------------------------------------------------- filling a table

  /** The keys of a list of entries, in order. */
  function KeysOf(entries: seq<(string, string)>): (ks: seq<string>)
    ensures |ks| == |entries|
    ensures forall i :: 0 <= i < |entries| ==> ks[i] == entries[i].0
  {
    if entries == [] then [] else [entries[0].0] + KeysOf(entries[1..])
  }

  predicate NoRepeats(s: seq<string>)
  {
    forall i, j :: 0 <= i < j < |s| ==> s[i] != s[j]
  }

  /**
   * Both tables are filled the same way: entry after entry, each key checked to be new
   * (build.py:134, 136, 154, 157) and then entered.
   */
  function Insert(entries: seq<(string, string)>, m: map<string, string>): Result<map<string, string>>
    decreases |entries|
  {
    if entries == [] then Ok(m)
    else if entries[0].0 in m then Fail(DuplicateName(entries[0].0))
    else Insert(entries[1..], m[entries[0].0 := entries[0].1])
  }

  /** Filling succeeds exactly when no key repeats, within the entries or against `m`. */
  lemma {:induction false} InsertOk(entries: seq<(string, string)>, m: map<string, string>)
    ensures Insert(entries, m).Ok? <==> NoRepeats(KeysOf(entries)) && forall k <- KeysOf(entries) :: k !in m
    decreases |entries|
  {
    if entries != [] {
      var k := entries[0].0;
      var ks := KeysOf(entries);
      var rest := KeysOf(entries[1..]);
      assert ks == [k] + rest;
      NoRepeatsConcat([k], rest);
      InsertOk(entries[1..], m[k := entries[0].1]);
    }
  }

  lemma KeysOfHead(entries: seq<(string, string)>)
    requires entries != []
    ensures (set k <- KeysOf(entries)) == {entries[0].0} + set k <- KeysOf(entries[1..])
  {
    assert KeysOf(entries) == [entries[0].0] + KeysOf(entries[1..]);
  }

  /** A filled table holds exactly the keys of `m` and of the entries, each with its value. */
  lemma {:induction false} InsertContents(entries: seq<(string, string)>, m: map<string, string>, t: map<string, string>)
    requires Insert(entries, m) == Ok(t)
    ensures t.Keys == m.Keys + set k <- KeysOf(entries)
    ensures forall e <- entries :: e.0 in t && t[e.0] == e.1
    ensures forall k :: k in m ==> t[k] == m[k]
    decreases |entries|
  {
    if entries != [] {
      var e0 := entries[0];
      var m1 := m[e0.0 := e0.1];
      assert e0.0 !in m && Insert(entries[1..], m1) == Ok(t);
      InsertContents(entries[1..], m1, t);
      KeysOfHead(entries);
      assert t.Keys == m.Keys + set k <- KeysOf(entries) by {
        assert m1.Keys == m.Keys + {e0.0};
      }
      forall e <- entries
        ensures e.0 in t && t[e.0] == e.1
      {
        if e != e0 {
          assert e in entries[1..];
        }
      }
      forall k | k in m
        ensures t[k] == m[k]
      {
        assert m1[k] == m[k];
      }
    }
  }

  /** Filling with two lists in turn is filling with both. */
  lemma {:induction false} InsertConcat(a: seq<(string, string)>, b: seq<(string, string)>, m: map<string, string>)
    ensures Insert(a + b, m) == match Insert(a, m) case Fail(e) => Fail(e) case Ok(m1) => Insert(b, m1)
    decreases |a|
  {
    if a != [] {
      assert (a + b)[1..] == a[1..] + b;
      if a[0].0 !in m {
        InsertConcat(a[1..], b, m[a[0].0 := a[0].1]);
      }
    } else {
      assert a + b == b;
    }
  }

  /** A list without repeats is two lists without repeats that share nothing. */
  lemma NoRepeatsConcat(a: seq<string>, b: seq<string>)
    ensures NoRepeats(a + b) <==> NoRepeats(a) && NoRepeats(b) && forall x <- a :: x !in b
  {
    var s := a + b;
    if NoRepeats(s) {
      forall i, j | 0 <= i < j < |b|
        ensures b[i] != b[j]
      {
        assert s[|a| + i] == b[i] && s[|a| + j] == b[j];
      }
      forall i, j | 0 <= i < j < |a|
        ensures a[i] != a[j]
      {
        assert s[i] == a[i] && s[j] == a[j];
      }
      forall x <- a
        ensures x !in b
      {
        var i :| 0 <= i < |a| && a[i] == x;
        forall j | 0 <= j < |b|
          ensures b[j] != x
        {
          assert s[i] == a[i] && s[|a| + j] == b[j];
        }
      }
    }
    if NoRepeats(a) && NoRepeats(b) && forall x <- a :: x !in b {
      forall i, j | 0 <= i < j < |s|
        ensures s[i] != s[j]
      {
        if j < |a| {
          assert s[i] == a[i] && s[j] == a[j];
        } else if i >= |a| {
          assert s[i] == b[i - |a|] && s[j] == b[j - |a|];
        } else {
          assert s[i] == a[i] && a[i] in a && s[j] == b[j - |a|];
        }
      }
    }
  }

  // ---------------------------------------------------------------- the abbreviation table

  /** Each key maps to a key that maps back to it. */
  predicate Involution(m: map<string, string>)
  {
    forall k :: k in m ==> m[k] in m && m[m[k]] == k
  }

  /** The entries of the abbreviation table: each name to its partner, then the partner back. */
  function CharEntries(pairs: seq<(string, string)>): (es: seq<(string, string)>)
    ensures |es| == 2 * |pairs|
  {
    if pairs == [] then []
    else [(pairs[0].0, pairs[0].1), (pairs[0].1, pairs[0].0)] + CharEntries(pairs[1..])
  }

  /** The abbreviation table (build.py:128-136). */
  function CharTable(pairs: seq<(string, string)>): Result<map<string, string>>
  {
    Insert(CharEntries(pairs), map[])
  }

  /** Every entry of the abbreviation table comes with its reverse. */
  lemma {:induction false} CharEntriesReversed(pairs: seq<(string, string)>)
    ensures forall e <- CharEntries(pairs) :: (e.1, e.0) in CharEntries(pairs)
  {
    if pairs != [] {
      CharEntriesReversed(pairs[1..]);
    }
  }

  /**
   * The abbreviation table, once built, maps each name of a pair to its partner and back,
   * holds no other key, and so swapping twice gives back the abbreviation.
   */
  lemma CharTableSwaps(pairs: seq<(string, string)>, t: map<string, string>)
    requires CharTable(pairs) == Ok(t)
    ensures forall p <- pairs :: p.0 in t && t[p.0] == p.1 && p.1 in t && t[p.1] == p.0
    ensures t.Keys == set k <- KeysOf(CharEntries(pairs))
    ensures Involution(t)
  {
    var es := CharEntries(pairs);
    InsertContents(es, map[], t);
    CharEntriesOfPairs(pairs);
    forall p <- pairs
      ensures p.0 in t && t[p.0] == p.1 && p.1 in t && t[p.1] == p.0
    {
      assert (p.0, p.1) in es && (p.1, p.0) in es;
    }
    CharEntriesReversed(pairs);
    EntriesInvolution(es, t);
  }

  /** A table holding exactly its entries, when every entry comes with its reverse, is an involution. */
  lemma EntriesInvolution(es: seq<(string, string)>, t: map<string, string>)
    requires t.Keys == set k <- KeysOf(es)
    requires forall e <- es :: e.0 in t && t[e.0] == e.1
    requires forall e <- es :: (e.1, e.0) in es
    ensures Involution(t)
  {
    forall k | k in t
      ensures t[k] in t && t[t[k]] == k
    {
      var i :| 0 <= i < |es| && KeysOf(es)[i] == k;
      var e := es[i];
      assert e in es && e.0 == k && t[k] == e.1;
      assert (e.1, e.0) in es;
    }
  }

  lemma {:induction false} CharEntriesOfPairs(pairs: seq<(string, string)>)
    ensures forall p <- pairs :: (p.0, p.1) in CharEntries(pairs) && (p.1, p.0) in CharEntries(pairs)
  {
    if pairs != [] {
      CharEntriesOfPairs(pairs[1..]);
      assert forall p <- pairs :: p == pairs[0] || p in pairs[1..];
    }
  }

  /** Both names of every pair, in order. */
  function Names(pairs: seq<(string, string)>): seq<string>
  {
    if pairs == [] then [] else [pairs[0].0, pairs[0].1] + Names(pairs[1..])
  }

  lemma {:induction false} CharKeys(pairs: seq<(string, string)>)
    ensures KeysOf(CharEntries(pairs)) == Names(pairs)
  {
    if pairs != [] {
      CharKeys(pairs[1..]);
      var head := [(pairs[0].0, pairs[0].1), (pairs[0].1, pairs[0].0)];
      KeysOfConcat(head, CharEntries(pairs[1..]));
    }
  }

  /** No abbreviation of build.py's list occurs twice. */
  lemma GenderedCharsDistinct()
    ensures NoRepeats(Names(GenderedChars))
  {
    var ns := Names(GenderedChars);
    assert ns == ["F", "M", "BR", "SR", "SN", "D", "U", "AU", "NW", "NC", "GF", "GM", "SF", "SM"];
  }

  /** The abbreviation table of build.py is built without a duplicate. */
  lemma GenderedCharsBuild()
    ensures CharTable(GenderedChars).Ok?
  {
    var es := CharEntries(GenderedChars);
    GenderedCharsDistinct();
    CharKeys(GenderedChars);
    assert NoRepeats(KeysOf(es));
    InsertOk(es, map[]);
  }

  /** The loop of build.py:130-136 that fills the abbreviation table. */
  method BuildCharTable(pairs: seq<(string, string)>) returns (r: Result<map<string, string>>)
    ensures r == CharTable(pairs)
  {
    var m: map<string, string> := map[];
    for i := 0 to |pairs|
      invariant CharTable(pairs) == Insert(CharEntries(pairs[i..]), m)
    {
      assert pairs[i..][1..] == pairs[i + 1..];
      var (male, female) := pairs[i];
      var step := [(male, female), (female, male)];
      InsertConcat(step, CharEntries(pairs[i + 1..]), m);
      ghost var m0 := m;
      if male in m {
        return Fail(DuplicateName(male));
      }
      m := m[male := female];
      if female in m {
        return Fail(DuplicateName(female));
      }
      m := m[female := male];
      assert step[1..] == [(female, male)] && step[1..][1..] == [];
      assert Insert(step[1..][1..], m) == Ok(m);
      assert Insert(step[1..], m0[male := female]) == Ok(m);
      assert Insert(step, m0) == Ok(m);
    }
    assert pairs[|pairs|..] == [];
    return Ok(m);
  }

  // ---------------------------------------------------------------- the term table

  /** A name marked "*" is only ever a target (build.py:15-17). */
  predicate Starred(name: string) { name != [] && name[0] == '*' }

  function Unstar(name: string): string { if Starred(name) then name[1..] else name }

  /** Every name of the list is non-empty (build.py:145 and 148 read its first character). */
  predicate NamesPresent(pairs: seq<(string, string)>)
  {
    forall i :: 0 <= i < |pairs| ==> pairs[i].0 != [] && pairs[i].1 != []
  }

  /**
   * The entries of the term table: an unstarred first name to the second name without its
   * star, then an unstarred second name to the first name without its star.
   */
  function TermEntries(pairs: seq<(string, string)>): seq<(string, string)>
  {
    if pairs == [] then []
    else
      PairEntries(pairs[0]) + TermEntries(pairs[1..])
  }

  /** The entries one pair of names adds: each unstarred name mapped to its partner without the star. */
  function PairEntries(p: (string, string)): seq<(string, string)>
  {
    (if Starred(p.0) then [] else [(p.0, Unstar(p.1))]) + (if Starred(p.1) then [] else [(p.1, Unstar(p.0))])
  }

  /** The term table (build.py:139-158). */
  function ReplaceTable(pairs: seq<(string, string)>): Result<map<string, string>>
    requires NamesPresent(pairs)
  {
    Insert(TermEntries(pairs), map[])
  }

  /** Every key of the term entries is an unstarred name of some pair. */
  lemma {:induction false} TermKeys(pairs: seq<(string, string)>)
    ensures forall k <- KeysOf(TermEntries(pairs)) :: !Starred(k) && exists p <- pairs :: k == p.0 || k == p.1
  {
    if pairs != [] {
      TermKeys(pairs[1..]);
      var head := PairEntries(pairs[0]);
      KeysOfConcat(head, TermEntries(pairs[1..]));
      forall k <- KeysOf(TermEntries(pairs))
        ensures !Starred(k) && exists p <- pairs :: k == p.0 || k == p.1
      {
        if k in KeysOf(head) {
          assert k == pairs[0].0 || k == pairs[0].1;
        } else {
          assert k in KeysOf(TermEntries(pairs[1..]));
          var p :| p in pairs[1..] && (k == p.0 || k == p.1);
          assert p in pairs;
        }
      }
    }
  }

  /** Every unstarred name of a pair has its entry among the term entries. */
  lemma {:induction false} TermEntriesCover(pairs: seq<(string, string)>)
    ensures forall p <- pairs :: !Starred(p.0) ==> (p.0, Unstar(p.1)) in TermEntries(pairs)
    ensures forall p <- pairs :: !Starred(p.1) ==> (p.1, Unstar(p.0)) in TermEntries(pairs)
  {
    if pairs != [] {
      TermEntriesCover(pairs[1..]);
      assert forall p <- pairs :: p == pairs[0] || p in pairs[1..];
    }
  }

  lemma {:induction false} KeysOfConcat(a: seq<(string, string)>, b: seq<(string, string)>)
    ensures KeysOf(a + b) == KeysOf(a) + KeysOf(b)
  {
  }

  /**
   * The term table, once built, maps each unstarred name to its partner without the star,
   * and a starred name is a key only where it also occurs unstarred.
   */
  lemma TermTableMaps(pairs: seq<(string, string)>, t: map<string, string>)
    requires NamesPresent(pairs) && ReplaceTable(pairs) == Ok(t)
    ensures forall p <- pairs :: !Starred(p.0) ==> p.0 in t && t[p.0] == Unstar(p.1)
    ensures forall p <- pairs :: !Starred(p.1) ==> p.1 in t && t[p.1] == Unstar(p.0)
    ensures forall k <- t :: !Starred(k) && exists p <- pairs :: k == p.0 || k == p.1
  {
    InsertContents(TermEntries(pairs), map[], t);
    TermKeys(pairs);
    TermEntriesCover(pairs);
  }

  /** Every name of build.py's term list is non-empty. */
  lemma GenderedTermsNamed()
    ensures NamesPresent(GenderedTerms)
  {
  }

  // The term list is too long to check in one piece: the keys of each of its eight runs are
  // worked out on their own, and the runs are joined.

  /** The keys the term table receives from build.py's list, in order. */
  const GenderedTermKeys: seq<string> := TermKeysA + TermKeysB + TermKeysC + TermKeysD

  const TermKeysA: seq<string> := [
      "adventurer", "adventuress", "brother", "sister", "brothers", "sisters", "boy", "girl",
      "clergyman", "clergywoman"
    ] + [
      "cowboy", "cowgirl", "craftsman", "craftswoman", "father", "mother", "fatherhood",
      "motherhood", "fathers", "mothers"
    ]

  /** No key repeats within a run of keys. */
  lemma TermKeysADistinct()
    ensures NoRepeats(TermKeysA)
  {
  }

  const TermKeysB: seq<string> := [
      "foreman", "forewoman", "frontiersman", "frontierswoman", "gentleman", "lady",
      "ladies_poss", "gentlemen", "ladies"
    ] + [
      "grandfather", "grandmother", "he", "she", "highwayman", "highwaywoman", "him", "himself",
      "herself"
    ]

  lemma TermKeysBDistinct()
    ensures NoRepeats(TermKeysB)
  {
  }

  const TermKeysC: seq<string> := [
      "husband", "wife", "his", "male", "female", "man", "woman", "man-hater", "woman-hater"
    ] + [
      "mankind", "womankind", "manly", "womanly", "manservant", "maid", "men", "women",
      "misogynist", "misandrist"
    ]

  lemma TermKeysCDistinct()
    ensures NoRepeats(TermKeysC)
  {
  }

  const TermKeysD: seq<string> := [
      "mistress", "nephew", "niece", "paternal", "maternal", "policeman", "policewoman", "son",
      "daughter"
    ] + [
      "stepfather", "stepmother", "uncle", "aunt", "maiden", "widower", "widow"
    ]

  lemma TermKeysDDistinct()
    ensures NoRepeats(TermKeysD)
  {
  }

  /** The four runs of keys share no key. */
  lemma TermKeysABApart()
    ensures forall x <- TermKeysA :: x !in TermKeysB
  {
  }

  lemma TermKeysACApart()
    ensures forall x <- TermKeysA :: x !in TermKeysC
  {
  }

  lemma TermKeysADApart()
    ensures forall x <- TermKeysA :: x !in TermKeysD
  {
  }

  lemma TermKeysBCApart()
    ensures forall x <- TermKeysB :: x !in TermKeysC
  {
  }

  lemma TermKeysBDApart()
    ensures forall x <- TermKeysB :: x !in TermKeysD
  {
  }

  lemma TermKeysCDApart()
    ensures forall x <- TermKeysC :: x !in TermKeysD
  {
  }

  /** The keys the term entries of `pairs` have: its unstarred names, in order. */
  function EntryKeys(pairs: seq<(string, string)>): seq<string>
  {
    if pairs == [] then []
    else
      (if Starred(pairs[0].0) then [] else [pairs[0].0]) + (if Starred(pairs[0].1) then [] else [pairs[0].1])
      + EntryKeys(pairs[1..])
  }

  lemma {:induction false} EntryKeysOf(pairs: seq<(string, string)>)
    ensures KeysOf(TermEntries(pairs)) == EntryKeys(pairs)
  {
    if pairs != [] {
      var p := pairs[0];
      KeysOfConcat(PairEntries(p), TermEntries(pairs[1..]));
      KeysOfConcat(if Starred(p.0) then [] else [(p.0, Unstar(p.1))], if Starred(p.1) then [] else [(p.1, Unstar(p.0))]);
      EntryKeysOf(pairs[1..]);
    }
  }

  lemma {:induction false} EntryKeysConcat(a: seq<(string, string)>, b: seq<(string, string)>)
    ensures EntryKeys(a + b) == EntryKeys(a) + EntryKeys(b)
  {
    if a != [] {
      assert (a + b)[1..] == a[1..] + b;
      EntryKeysConcat(a[1..], b);
    } else {
      assert a + b == b;
    }
  }

  lemma TermKeysPart0()
    ensures EntryKeys(TermsPart0) == [
      "adventurer", "adventuress", "brother", "sister", "brothers", "sisters", "boy", "girl",
      "clergyman", "clergywoman"
    ]
  {
  }

  lemma TermKeysPart1()
    ensures EntryKeys(TermsPart1) == [
      "cowboy", "cowgirl", "craftsman", "craftswoman", "father", "mother", "fatherhood",
      "motherhood", "fathers", "mothers"
    ]
  {
  }

  lemma TermKeysPart2()
    ensures EntryKeys(TermsPart2) == [
      "foreman", "forewoman", "frontiersman", "frontierswoman", "gentleman", "lady",
      "ladies_poss", "gentlemen", "ladies"
    ]
  {
  }

  lemma TermKeysPart3()
    ensures EntryKeys(TermsPart3) == [
      "grandfather", "grandmother", "he", "she", "highwayman", "highwaywoman", "him", "himself",
      "herself"
    ]
  {
  }

  lemma TermKeysPart4()
    ensures EntryKeys(TermsPart4) == [
      "husband", "wife", "his", "male", "female", "man", "woman", "man-hater", "woman-hater"
    ]
  {
  }

  lemma TermKeysPart5()
    ensures EntryKeys(TermsPart5) == [
      "mankind", "womankind", "manly", "womanly", "manservant", "maid", "men", "women",
      "misogynist", "misandrist"
    ]
  {
  }

  lemma TermKeysPart6()
    ensures EntryKeys(TermsPart6) == [
      "mistress", "nephew", "niece", "paternal", "maternal", "policeman", "policewoman", "son",
      "daughter"
    ]
  {
  }

  lemma TermKeysPart7()
    ensures EntryKeys(TermsPart7) == [
      "stepfather", "stepmother", "uncle", "aunt", "maiden", "widower", "widow"
    ]
  {
  }

  /** The keys of two neighbouring runs of pairs. */
  lemma TermKeysOfA()
    ensures EntryKeys(TermsPart0 + TermsPart1) == TermKeysA
  {
    TermKeysPart0();
    TermKeysPart1();
    EntryKeysConcat(TermsPart0, TermsPart1);
  }

  lemma TermKeysOfB()
    ensures EntryKeys(TermsPart2 + TermsPart3) == TermKeysB
  {
    TermKeysPart2();
    TermKeysPart3();
    EntryKeysConcat(TermsPart2, TermsPart3);
  }

  lemma TermKeysOfC()
    ensures EntryKeys(TermsPart4 + TermsPart5) == TermKeysC
  {
    TermKeysPart4();
    TermKeysPart5();
    EntryKeysConcat(TermsPart4, TermsPart5);
  }

  lemma TermKeysOfD()
    ensures EntryKeys(TermsPart6 + TermsPart7) == TermKeysD
  {
    TermKeysPart6();
    TermKeysPart7();
    EntryKeysConcat(TermsPart6, TermsPart7);
  }

  /** The keys of the eight runs of pairs are the four runs of keys in order. */
  lemma GenderedTermKeysOf(pairs: seq<(string, string)>)
    requires pairs == GenderedTerms
    ensures KeysOf(TermEntries(pairs)) == GenderedTermKeys
  {
    var a, b, c, d := TermsPart0 + TermsPart1, TermsPart2 + TermsPart3, TermsPart4 + TermsPart5, TermsPart6 + TermsPart7;
    TermKeysOfA();
    TermKeysOfB();
    TermKeysOfC();
    TermKeysOfD();
    EntryKeysConcat(a, b);
    EntryKeysConcat(a + b, c);
    EntryKeysConcat(a + b + c, d);
    EntryKeysOf(pairs);
  }

  /** No key repeats in build.py's term list. */
  lemma GenderedTermKeysDistinct()
    ensures NoRepeats(GenderedTermKeys)
  {
    TermKeysADistinct();
    TermKeysBDistinct();
    TermKeysCDistinct();
    TermKeysDDistinct();
    TermKeysABApart();
    TermKeysACApart();
    TermKeysADApart();
    TermKeysBCApart();
    TermKeysBDApart();
    TermKeysCDApart();
    NoRepeatsConcat(TermKeysA, TermKeysB);
    NoRepeatsConcat(TermKeysA + TermKeysB, TermKeysC);
    NoRepeatsConcat(TermKeysA + TermKeysB + TermKeysC, TermKeysD);
  }

  /**
   * The term table of build.py is built without a duplicate: no `assert` of build.py:154 or
   * 157 fails.  (The list is a parameter so that the proof does not unfold the literal.)
   */
  lemma GenderedTermsBuild(pairs: seq<(string, string)>)
    requires pairs == GenderedTerms
    ensures NamesPresent(pairs) && ReplaceTable(pairs).Ok?
  {
    GenderedTermsNamed();
    GenderedTermKeysOf(pairs);
    GenderedTermKeysDistinct();
    InsertOk(TermEntries(pairs), map[]);
  }

  /** A name the term entries never use as a key is not a key of the term table. */
  lemma AbsentKey(pairs: seq<(string, string)>, t: map<string, string>, x: string)
    requires NamesPresent(pairs) && ReplaceTable(pairs) == Ok(t)
    requires x !in KeysOf(TermEntries(pairs))
    ensures x !in t
  {
    InsertContents(TermEntries(pairs), map[], t);
  }

  /** The entry the term table holds for the pair at index i. */
  lemma TermAt(pairs: seq<(string, string)>, t: map<string, string>, i: nat)
    requires NamesPresent(pairs) && ReplaceTable(pairs) == Ok(t) && i < |pairs|
    ensures !Starred(pairs[i].0) ==> pairs[i].0 in t && t[pairs[i].0] == Unstar(pairs[i].1)
    ensures !Starred(pairs[i].1) ==> pairs[i].1 in t && t[pairs[i].1] == Unstar(pairs[i].0)
  {
    TermTableMaps(pairs, t);
    assert pairs[i] in pairs;
  }

  /** The names build.py marks "*" are not among the keys its list enters. */
  lemma StarredNotKeys(x: string)
    requires x == "her" || x == "lover" || x == "unmarried" || x == "gentlemen's"
    ensures x !in GenderedTermKeys
  {
    StarredNotKeysAB(x);
    StarredNotKeysCD(x);
  }

  lemma StarredNotKeysAB(x: string)
    requires x == "her" || x == "lover" || x == "unmarried" || x == "gentlemen's"
    ensures x !in TermKeysA && x !in TermKeysB
  {
  }

  lemma StarredNotKeysCD(x: string)
    requires x == "her" || x == "lover" || x == "unmarried" || x == "gentlemen's"
    ensures x !in TermKeysC && x !in TermKeysD
  {
  }

  /**
   * In the term table built from build.py's list, the names marked "*" are targets only:
   * "her", "lover", "unmarried" and "gentlemen's" are never looked up, while "him" and "his"
   * both become "her" and "mistress" becomes "lover".
   */
  lemma GenderedTermsTargets(pairs: seq<(string, string)>, t: map<string, string>)
    requires pairs == GenderedTerms && t == GenderTables().terms
    ensures "her" !in t && "lover" !in t && "unmarried" !in t && "gentlemen's" !in t
  {
    GenderedTermsBuild(pairs);
    GenderedTermKeysOf(pairs);
    StarredNotKeys("her");
    StarredNotKeys("lover");
    StarredNotKeys("unmarried");
    StarredNotKeys("gentlemen's");
    AbsentKey(pairs, t, "her");
    AbsentKey(pairs, t, "lover");
    AbsentKey(pairs, t, "unmarried");
    AbsentKey(pairs, t, "gentlemen's");
  }

  /** Where build.py's list places the pairs with a starred name, and two plain ones. */
  lemma GenderedTermsAt()
    ensures GenderedTerms[13] == ("*gentlemen's", "ladies_poss") && GenderedTerms[16] == ("he", "she")
    ensures GenderedTerms[18] == ("him", "*her") && GenderedTerms[21] == ("his", "*her")
    ensures GenderedTerms[30] == ("*lover", "mistress") && GenderedTerms[37] == ("*unmarried", "maiden")
  {
  }

  /** The starred names of build.py's list, without their star. */
  lemma Unstarred()
    ensures Unstar("*her") == "her" && Unstar("*lover") == "lover"
    ensures Unstar("*unmarried") == "unmarried" && Unstar("*gentlemen's") == "gentlemen's"
    ensures Unstar("she") == "she" && Unstar("he") == "he"
    ensures !Starred("him") && !Starred("his") && !Starred("he") && !Starred("mistress")
    ensures !Starred("maiden") && !Starred("ladies_poss")
  {
  }

  /**
   * In the same table "him" and "his" both become "her", "mistress" becomes "lover" and
   * "maiden" becomes "unmarried" (the list is given element by element).
   */
  lemma GenderedTermsPartners(pairs: seq<(string, string)>, t: map<string, string>)
    requires |pairs| == |GenderedTerms| && forall i :: 0 <= i < |pairs| ==> pairs[i] == GenderedTerms[i]
    requires t == GenderTables().terms
    ensures "him" in t && t["him"] == "her" && "his" in t && t["his"] == "her" && "he" in t && t["he"] == "she"
    ensures "mistress" in t && t["mistress"] == "lover" && "maiden" in t && t["maiden"] == "unmarried"
    ensures "ladies_poss" in t && t["ladies_poss"] == "gentlemen's"
  {
    assert pairs == GenderedTerms;
    GenderedTermsAt();
    Unstarred();
    assert pairs[18] == GenderedTerms[18] && pairs[21] == GenderedTerms[21] && pairs[16] == GenderedTerms[16];
    assert pairs[30] == GenderedTerms[30] && pairs[37] == GenderedTerms[37] && pairs[13] == GenderedTerms[13];
    TermAt(pairs, t, 18);
    TermAt(pairs, t, 21);
    TermAt(pairs, t, 16);
    TermAt(pairs, t, 30);
    TermAt(pairs, t, 37);
    TermAt(pairs, t, 13);
  }

  /** The loop of build.py:139-158 that fills the term table. */
  method BuildReplaceTable(pairs: seq<(string, string)>) returns (r: Result<map<string, string>>)
    requires NamesPresent(pairs)
    ensures r == ReplaceTable(pairs)
  {
    var m: map<string, string> := map[];
    for i := 0 to |pairs|
      invariant ReplaceTable(pairs) == Insert(TermEntries(pairs[i..]), m)
    {
      assert pairs[i..][1..] == pairs[i + 1..];
      var (male, female) := pairs[i];
      var m2f, f2m := true, true;
      if male[0] == '*' {
        male := male[1..];
        m2f := false;
      }
      if female[0] == '*' {
        female := female[1..];
        f2m := false;
      }
      var step := (if m2f then [(male, female)] else []) + (if f2m then [(female, male)] else []);
      assert step == PairEntries(pairs[i]);
      assert TermEntries(pairs[i..]) == step + TermEntries(pairs[i + 1..]);
      InsertConcat(step, TermEntries(pairs[i + 1..]), m);
      ghost var m0 := m;
      if m2f {
        if male in m {
          return Fail(DuplicateName(male));
        }
        m := m[male := female];
      }
      if f2m {
        if female in m {
          return Fail(DuplicateName(female));
        }
        m := m[female := male];
      }
      if m2f && f2m {
        assert step[1..] == [(female, male)] && step[1..][1..] == [];
        assert Insert(step[1..][1..], m) == Ok(m);
        assert Insert(step[1..], m0[male := female]) == Ok(m);
      } else if m2f || f2m {
        assert step[1..] == [];
        assert Insert(step[1..], m) == Ok(m);
      }
      assert Insert(step, m0) == Ok(m);
    }
    assert pairs[|pairs|..] == [];
    return Ok(m);
  }

  // ---------------------------------------------------------------- one word

  /** The two tables a swap reads. */
  datatype Tables = Tables(chars: map<string, string>, terms: map<string, string>)

  /** The two tables `__init__` builds from build.py's lists (build.py:127-158); neither build fails. */
  function GenderTables(): (t: Tables)
    ensures CharTable(GenderedChars) == Ok(t.chars)
    ensures NamesPresent(GenderedTerms) && ReplaceTable(GenderedTerms) == Ok(t.terms)
  {
    Tables(GenderCharTable(GenderedChars), GenderTermTable(GenderedTerms))
  }

  /** The abbreviation table filled from build.py's list. */
  function GenderCharTable(pairs: seq<(string, string)>): (m: map<string, string>)
    requires pairs == GenderedChars
    ensures CharTable(pairs) == Ok(m)
  {
    GenderedCharsBuild();
    CharTable(pairs).value
  }

  /** The term table filled from build.py's list. */
  function GenderTermTable(pairs: seq<(string, string)>): (m: map<string, string>)
    requires pairs == GenderedTerms
    ensures NamesPresent(pairs) && ReplaceTable(pairs) == Ok(m)
  {
    GenderedTermsBuild(pairs);
    ReplaceTable(pairs).value
  }

  /** `t` holds the two tables filled from the two lists, and both fillings succeed. */
  predicate BuiltFrom(t: Tables, chars: seq<(string, string)>, terms: seq<(string, string)>)
  {
    CharTable(chars) == Ok(t.chars) && NamesPresent(terms) && ReplaceTable(terms) == Ok(t.terms)
  }

  /**
   * The table building of `__init__` (build.py:127-158), over the two lists of build.py:
   * both loops run to the end.  (The term list is given element by element, so that the
   * proof does not unfold the literal.)
   */
  method BuildTables(chars: seq<(string, string)>, terms: seq<(string, string)>) returns (t: Tables)
    requires chars == GenderedChars
    requires |terms| == |GenderedTerms| && forall i :: 0 <= i < |terms| ==> terms[i] == GenderedTerms[i]
    ensures BuiltFrom(t, chars, terms)
  {
    assert terms == GenderedTerms;
    GenderedCharsBuild();
    GenderedTermsBuild(terms);
    var c := BuildCharTable(chars);
    var r := BuildReplaceTable(terms);
    t := Tables(c.value, r.value);
  }

  /**
   * The per-line hints (build.py:160-182): the senses of the "her"s of the line, if a
   * HER directive gave them, and whether a U, HUSBAND or MISTRESS directive applies.
   */
  datatype Hints = Hints(her: Option<seq<string>>, u: bool, husband: bool, mistress: bool)

  const NoHints := Hints(None, false, false, false)

  /** The eight abbreviations swapped when they stand alone (build.py:571). */
  const BareAbbreviations: seq<string> := ["BR", "SR", "SN", "D", "U", "AU", "NC", "NW"]

  /** `word` with its first letter made upper case when `cap` is set. */
  function Capitalised(word: string, cap: bool): string
  {
    if cap && word != [] then [ToUpper(word[0])] + word[1..] else word
  }

  /** `word` with its first letter made lower case, when it is upper case. */
  function Uncapitalised(word: string): string
  {
    if word != [] && IsUpper(word[0]) then [ToLower(word[0])] + word[1..] else word
  }

  /**
   * `preprocess_word` (build.py:558-607): the swapped word and the hints left for the rest
   * of the line, in the order the source tries the cases.
   */
  function SwapWord(word: string, t: Tables, h: Hints): (r: Result<(string, Hints)>)
    ensures r.Ok? ==> r.value.1.u == h.u && r.value.1.husband == h.husband && r.value.1.mistress == h.mistress
    ensures r.Ok? && r.value.1.her != h.her ==>
              Uncapitalised(word) == "her" && h.her.Some? && h.her.value != [] && r.value.1.her == Some(h.her.value[1..])
  {
    if word == [] then Ok((word, h))
    else
      var parts := Split(word, "-");
      if |parts| == 2 && (parts[1] == "A" || parts[1] == "B") && parts[0] in t.chars then
        Ok((t.chars[parts[0]] + "-" + parts[1], h))
      else if word == "U" && h.u then Ok((word, h))
      else if word in BareAbbreviations then
        if word in t.chars then Ok((t.chars[word], h)) else Fail(UnknownAbbreviation(word))
      else
        var cap := IsUpper(word[0]);
        var lower := Uncapitalised(word);
        if lower == "her" then
          match h.her
          case None => Ok((Capitalised("his", cap), h))
          case Some(senses) =>
            if senses == [] then Fail(MissingHerInfo(word))
            else if senses[0] == "obj" then Ok((Capitalised("him", cap), h.(her := Some(senses[1..]))))
            else if senses[0] == "poss" then Ok((Capitalised("his", cap), h.(her := Some(senses[1..]))))
            else Fail(UnknownHerSense(senses[0]))
        else if lower == "husband" && h.husband then Ok(("husband", h))
        else if lower == "mistress" && h.mistress then Ok(("master", h))
        else if lower in t.terms then Ok((Capitalised(t.terms[lower], cap), h))
        else Ok((word, h))
  }

  /** `X-A` and `X-B` with `X` an abbreviation become the partner with the same suffix. */
  lemma SwapSuffixed(word: string, x: string, suffix: string, t: Tables, h: Hints)
    requires word == x + "-" + suffix && '-' !in x
    requires suffix == "A" || suffix == "B"
    requires x in t.chars
    ensures SwapWord(word, t, h) == Ok((t.chars[x] + "-" + suffix, h))
  {
    SplitAtChar(x, '-', suffix);
    assert Split(suffix, "-") == [suffix] by {
      ContainsChar(suffix, '-');
    }
  }

  /** A bare abbreviation is swapped, except "U" under a U hint, which is kept. */
  lemma SwapBare(word: string, t: Tables, h: Hints)
    requires word in BareAbbreviations && word in t.chars
    ensures SwapWord(word, t, h) == Ok((if word == "U" && h.u then word else t.chars[word], h))
  {
    assert '-' !in word;
    ContainsChar(word, '-');
  }

  /**
   * Swapping a bare abbreviation twice gives it back, unless a U hint keeps a "U" on one of
   * the two swaps.
   */
  lemma SwapBareTwice(word: string, t: Tables, h: Hints)
    requires Involution(t.chars) && forall k <- t.chars :: k in BareAbbreviations <==> t.chars[k] in BareAbbreviations
    requires word in BareAbbreviations && word in t.chars && !(h.u && (word == "U" || t.chars[word] == "U"))
    ensures SwapWord(word, t, h).Ok? && SwapWord(SwapWord(word, t, h).value.0, t, h) == Ok((word, h))
  {
    SwapBare(word, t, h);
    SwapBare(t.chars[word], t, h);
  }

  /** Swapping `X-A` or `X-B` twice gives it back. */
  lemma SwapSuffixedTwice(x: string, suffix: string, t: Tables, h: Hints)
    requires Involution(t.chars) && x in t.chars && '-' !in x && '-' !in t.chars[x]
    requires suffix == "A" || suffix == "B"
    ensures SwapWord(x + "-" + suffix, t, h) == Ok((t.chars[x] + "-" + suffix, h))
    ensures SwapWord(t.chars[x] + "-" + suffix, t, h) == Ok((x + "-" + suffix, h))
  {
    SwapSuffixed(x + "-" + suffix, x, suffix, t, h);
    SwapSuffixed(t.chars[x] + "-" + suffix, t.chars[x], suffix, t, h);
  }

  /**
   * A table built from pairs that each join two bare abbreviations or two others, with no
   * "-" in any name, meets what the two lemmas above ask of it.
   */
  lemma CharTableSwapsBack(pairs: seq<(string, string)>, t: map<string, string>)
    requires CharTable(pairs) == Ok(t)
    requires forall p <- pairs :: (p.0 in BareAbbreviations <==> p.1 in BareAbbreviations) && '-' !in p.0 && '-' !in p.1
    ensures Involution(t) && forall k <- t :: '-' !in k
    ensures forall k <- t :: k in BareAbbreviations <==> t[k] in BareAbbreviations
  {
    CharTableSwaps(pairs, t);
    CharKeys(pairs);
    forall k <- t
      ensures '-' !in k && (k in BareAbbreviations <==> t[k] in BareAbbreviations)
    {
      NameOfPair(pairs, k);
    }
  }

  lemma {:induction false} NameOfPair(pairs: seq<(string, string)>, k: string)
    requires k in Names(pairs)
    ensures exists p <- pairs :: k == p.0 || k == p.1
  {
    if k != pairs[0].0 && k != pairs[0].1 {
      assert Names(pairs) == [pairs[0].0, pairs[0].1] + Names(pairs[1..]);
      NameOfPair(pairs[1..], k);
      var p :| p in pairs[1..] && (k == p.0 || k == p.1);
      assert p in pairs;
    } else {
      assert pairs[0] in pairs;
    }
  }

  /** build.py's abbreviation pairs join two bare abbreviations or two others, none with a "-". */
  lemma GenderedCharsPaired()
    ensures forall p <- GenderedChars ::
              (p.0 in BareAbbreviations <==> p.1 in BareAbbreviations) && '-' !in p.0 && '-' !in p.1
  {
  }

  /**
   * "her" (and "Her"): with no HER hint it becomes "his"; with one, the next sense is used
   * up and decides between "him" and "his"; a missing or unknown sense is fatal.  The
   * capital is kept.
   */
  lemma SwapHer(word: string, t: Tables, h: Hints)
    requires word == "her" || word == "Her"
    ensures h.her.None? ==> SwapWord(word, t, h) == Ok((Capitalised("his", word[0] == 'H'), h))
    ensures h.her.Some? && h.her.value == [] ==> SwapWord(word, t, h) == Fail(MissingHerInfo(word))
    ensures h.her.Some? && h.her.value != [] ==>
              SwapWord(word, t, h) ==
                if h.her.value[0] == "obj" then Ok((Capitalised("him", word[0] == 'H'), h.(her := Some(h.her.value[1..]))))
                else if h.her.value[0] == "poss" then Ok((Capitalised("his", word[0] == 'H'), h.(her := Some(h.her.value[1..]))))
                else Fail(UnknownHerSense(h.her.value[0]))
  {
    ContainsChar(word, '-');
    assert Uncapitalised(word) == "her";
  }

  /**
   * A word found in the term table (after lower-casing its first letter) is replaced by its
   * partner, with the capital kept, unless a hint or the "her" rule takes precedence.
   */
  lemma SwapTerm(word: string, t: Tables, h: Hints)
    requires word != [] && '-' !in word && word !in BareAbbreviations
    requires Uncapitalised(word) in t.terms
    requires Uncapitalised(word) != "her"
    requires !(Uncapitalised(word) == "husband" && h.husband)
    requires !(Uncapitalised(word) == "mistress" && h.mistress)
    ensures SwapWord(word, t, h) == Ok((Capitalised(t.terms[Uncapitalised(word)], IsUpper(word[0])), h))
  {
    ContainsChar(word, '-');
  }

  /**
   * Under a `-- HUSBAND verb` hint "husband" is kept, and written in lower case even when it
   * was capitalised (build.py:597-598).
   */
  lemma HusbandHint(word: string, t: Tables, h: Hints)
    requires h.husband && Uncapitalised(word) == "husband"
    ensures SwapWord(word, t, h) == Ok(("husband", h))
  {
    HintedWord(word, "husband");
  }

  /**
   * Under a `-- MISTRESS master` hint "mistress" becomes "master", in lower case even when it
   * was capitalised (build.py:599-600).
   */
  lemma MistressHint(word: string, t: Tables, h: Hints)
    requires h.mistress && Uncapitalised(word) == "mistress"
    ensures SwapWord(word, t, h) == Ok(("master", h))
  {
    HintedWord(word, "mistress");
  }

  /** A word that reads `lower` once uncapitalised, with `lower` a long lower-case word, is no abbreviation. */
  lemma HintedWord(word: string, lower: string)
    requires Uncapitalised(word) == lower && |lower| > 2 && '-' !in lower
    ensures word != [] && word !in BareAbbreviations && Split(word, "-") == [word]
  {
    assert |word| == |lower|;
    assert word[1..] == lower[1..];
    assert '-' !in word by {
      forall k | 0 <= k < |word| ensures word[k] != '-' {
        if k > 0 { assert word[k] == lower[k]; } else { assert IsUpper(word[0]) || word[0] == lower[0]; }
      }
    }
    ContainsChar(word, '-');
  }

  /**
   * A lower-case word whose partner is lower case and maps back to it is restored by a
   * second swap.
   */
  lemma SwapTermTwice(word: string, t: Tables, h: Hints)
    requires word != [] && '-' !in word && word !in BareAbbreviations && !IsUpper(word[0])
    requires word in t.terms && t.terms[word] != [] && !IsUpper(t.terms[word][0])
    requires t.terms[word] in t.terms && t.terms[t.terms[word]] == word
    requires '-' !in t.terms[word] && t.terms[word] !in BareAbbreviations
    requires word !in {"her", "husband", "mistress"} && t.terms[word] !in {"her", "husband", "mistress"}
    ensures SwapWord(word, t, h).Ok? && SwapWord(SwapWord(word, t, h).value.0, t, h) == Ok((word, h))
  {
    SwapTerm(word, t, h);
    SwapTerm(t.terms[word], t, h);
  }

  /** A word no rule applies to is left as it is. */
  lemma SwapNothing(word: string, t: Tables, h: Hints)
    requires '-' !in word && word !in BareAbbreviations
    requires Uncapitalised(word) !in t.terms
    requires Uncapitalised(word) !in {"her", "husband", "mistress"}
    ensures SwapWord(word, t, h) == Ok((word, h))
  {
    ContainsChar(word, '-');
  }

  // ---------------------------------------------------------------- one line

  /** The ASCII separators of the pattern `preprocess_line` splits on (build.py:617). */
  predicate IsSeparator(c: char)
  {
    c in " .,:;'\"()[]{}"
  }

  /*
   * build.py runs under Python 2, where a line is a string of UTF-8 bytes and the em-dash
   * in the pattern's character class is three separate bytes: E2, 80 and 94.  Each of them
   * splits a line wherever it occurs, inside a character as well as on its own.  Measured
   * in characters, that means two things.
   */

  /**
   * A character whose encoding begins with the byte E2 (U+2000 to U+2FFF: the em-dash, the
   * curly quotes and the other general punctuation among them) ends the word before it.
   */
  predicate SplitsBefore(c: char)
  {
    '\U{2000}' <= c <= '\U{2FFF}'
  }

  /**
   * A character of two bytes or more whose last byte is 80 or 94 (its low six bits are
   * 000000 or 010100) starts a new word after it.
   */
  predicate SplitsAfter(c: char)
  {
    c as int >= 0x80 && (c as int % 64 == 0 || c as int % 64 == 0x14)
  }

  /**
   * `re.split` with the separator class in a capturing group: the text alternates between
   * words and separators, starting and ending with a (possibly empty) word.  A separator
   * token is one ASCII separator, or empty where the split falls inside a character; the
   * character itself then stays with a word, as its bytes around the split do.
   */
  function Tokens(s: string): (ts: seq<string>)
    ensures |ts| % 2 == 1
    decreases |s|
  {
    if s == [] then [[]]
    else
      var rest := Tokens(s[1..]);
      if IsSeparator(s[0]) then [[], [s[0]]] + rest
      else
        var own := if SplitsAfter(s[0]) then [[s[0]], []] + rest else Prepend(s[0], rest);
        if SplitsBefore(s[0]) then [[], []] + own else own
  }

  /** `ts` with `c` put in front of its first token. */
  function Prepend(c: char, ts: seq<string>): (r: seq<string>)
    requires ts != []
    ensures |r| == |ts| && r[0] == [c] + ts[0] && r[1..] == ts[1..]
  {
    [[c] + ts[0]] + ts[1..]
  }

  lemma ConcatPrepend(c: char, ts: seq<string>)
    requires ts != []
    ensures Concat(Prepend(c, ts)) == [c] + Concat(ts)
  {
    var r := Prepend(c, ts);
    assert Concat(r) == r[0] + Concat(r[1..]);
    assert Concat(ts) == ts[0] + Concat(ts[1..]);
  }

  lemma ConcatTwo(x: string, y: string, ts: seq<string>)
    ensures Concat([x, y] + ts) == x + y + Concat(ts)
  {
    var r := [x, y] + ts;
    assert r[1..] == [y] + ts && r[1..][1..] == ts;
  }

  /** Joining the tokens gives back the line. */
  lemma {:induction false} TokensRebuild(s: string)
    ensures Concat(Tokens(s)) == s
    decreases |s|
  {
    if s != [] {
      var c := s[0];
      var rest := Tokens(s[1..]);
      TokensRebuild(s[1..]);
      assert s == [c] + s[1..];
      if IsSeparator(c) {
        ConcatTwo([], [c], rest);
      } else {
        var own := if SplitsAfter(c) then [[c], []] + rest else Prepend(c, rest);
        if SplitsAfter(c) {
          ConcatTwo([c], [], rest);
        } else {
          ConcatPrepend(c, rest);
        }
        if SplitsBefore(c) {
          ConcatTwo([], [], own);
        }
      }
    }
  }

  /**
   * The tokens alternate as `re.split` leaves them: a word token, then pairs of a separator
   * token and a word token.
   */
  predicate Alternates(ts: seq<string>)
    decreases |ts|
  {
    |ts| % 2 == 1 && EvenToken(ts[0]) && (|ts| > 1 ==> OddToken(ts[1]) && Alternates(ts[2..]))
  }

  /**
   * Every odd token is empty or one separator; no even token holds a separator; and in an
   * even token a character that splits before can only come first, one that splits after
   * only last.
   */
  lemma {:induction false} TokensShape(s: string)
    ensures Alternates(Tokens(s))
    decreases |s|
  {
    if s != [] {
      var c := s[0];
      TokensShape(s[1..]);
      var rest := Tokens(s[1..]);
      if IsSeparator(c) {
        assert ([[], [c]] + rest)[2..] == rest;
      } else {
        var own := if SplitsAfter(c) then [[c], []] + rest else Prepend(c, rest);
        if SplitsAfter(c) {
          assert own[2..] == rest;
        } else {
          EvenTokenPrepend(c, rest[0]);
          if |rest| > 1 {
            assert own[1] == rest[1] && own[2..] == rest[2..];
          }
        }
        if SplitsBefore(c) {
          assert ([[], []] + own)[2..] == own;
        }
      }
    }
  }

  /** A separator token: empty, or one ASCII separator. */
  predicate OddToken(w: string)
  {
    w == [] || (|w| == 1 && IsSeparator(w[0]))
  }

  /**
   * A word token: no separator, a character that splits before only in front, one that
   * splits after only at the end.
   */
  predicate EvenToken(w: string)
  {
    forall j :: 0 <= j < |w| ==>
      !IsSeparator(w[j]) && (j > 0 ==> !SplitsBefore(w[j])) && (j < |w| - 1 ==> !SplitsAfter(w[j]))
  }

  lemma EvenTokenPrepend(c: char, w: string)
    requires EvenToken(w) && !IsSeparator(c) && !SplitsAfter(c)
    requires w != [] ==> !SplitsBefore(w[0])
    ensures EvenToken([c] + w)
  {
    var v := [c] + w;
    assert forall j :: 1 <= j < |v| ==> v[j] == w[j - 1];
  }

  /**
   * The words of a line swapped left to right, each seeing the hints the words before it
   * left (build.py:620).
   */
  function SwapAll(ts: seq<string>, t: Tables, h: Hints): Result<(string, Hints)>
    decreases |ts|
  {
    if ts == [] then Ok(([], h))
    else
      match SwapWord(ts[0], t, h)
      case Fail(e) => Fail(e)
      case Ok((w, h1)) =>
        match SwapAll(ts[1..], t, h1)
        case Fail(e) => Fail(e)
        case Ok((rest, h2)) => Ok((w + rest, h2))
  }

  /**
   * `preprocess_line` (build.py:609-621): a directive line is left alone; any other line
   * has "ladies'" rewritten so that it can become "gentlemen's", and is then swapped
   * token by token.
   */
  function SwapLine(line: string, t: Tables, h: Hints): Result<(string, Hints)>
  {
    if StartsWith(line, "--") then Ok((line, h))
    else SwapAll(Tokens(Replace(line, "ladies'", "ladies_poss")), t, h)
  }

  /** No key of the term table is a single separator, as none of build.py's terms is. */
  predicate NoSeparatorTerm(t: Tables)
  {
    forall k <- t.terms :: !(|k| == 1 && IsSeparator(k[0]))
  }

  /** A separator token is never altered. */
  lemma SeparatorKept(w: string, t: Tables, h: Hints)
    requires OddToken(w) && NoSeparatorTerm(t)
    ensures SwapWord(w, t, h) == Ok((w, h))
  {
    if w == [] {
      return;
    }
    assert !IsUpper(w[0]) && w[0] != '-';
    assert '-' !in w;
    assert w !in BareAbbreviations by {
      assert forall b <- BareAbbreviations :: |b| == 2 || b[0] == 'D' || b[0] == 'U';
    }
    assert Uncapitalised(w) == w;
    assert w !in {"her", "husband", "mistress"};
    SwapNothing(w, t, h);
  }

  /** The number of tokens that read "her" once the first letter is lower-cased. */
  function HerCount(ts: seq<string>): nat
  {
    if ts == [] then 0 else (if Uncapitalised(ts[0]) == "her" then 1 else 0) + HerCount(ts[1..])
  }

  /**
   * The senses of a HER hint are used up left to right, one for each "her" of the line;
   * with no HER hint there is nothing to use up.
   */
  lemma {:induction false} HerSensesUsed(ts: seq<string>, t: Tables, h: Hints)
    requires SwapAll(ts, t, h).Ok?
    ensures h.her.None? ==> SwapAll(ts, t, h).value.1 == h
    ensures h.her.Some? ==>
              (HerCount(ts) <= |h.her.value| && SwapAll(ts, t, h).value.1 == h.(her := Some(h.her.value[HerCount(ts)..])))
    decreases |ts|
  {
    if ts != [] {
      var w := ts[0];
      var h1 := SwapWord(w, t, h).value.1;
      if Uncapitalised(w) == "her" {
        HerWord(w);
        SwapHer(w, t, h);
      }
      HerSensesUsed(ts[1..], t, h1);
      if h.her.Some? && Uncapitalised(w) == "her" {
        assert h.her.value[1..][HerCount(ts[1..])..] == h.her.value[HerCount(ts)..];
      }
    }
  }

  /** The words that read "her" once lower-cased are "her" and "Her". */
  lemma HerWord(w: string)
    requires Uncapitalised(w) == "her"
    ensures w == "her" || w == "Her"
  {
    var u := Uncapitalised(w);
    if IsUpper(w[0]) {
      assert u == [ToLower(w[0])] + w[1..];
      assert u[0] == ToLower(w[0]) && u[1..] == w[1..];
      assert w[0] == ToUpper('h') == 'H';
      assert w == [w[0]] + w[1..];
    }
  }

  /** A plain word followed by a character that splits before it is two words. */
  lemma {:induction false} TokensBeforeSplit(w: string, q: char)
    requires forall c <- w :: !IsSeparator(c) && !SplitsBefore(c) && !SplitsAfter(c)
    requires SplitsBefore(q) && !SplitsAfter(q)
    ensures Tokens(w + [q]) == [w, [], [q]]
    decreases |w|
  {
    var s := w + [q];
    if w == [] {
      assert s[1..] == [] && s[0] == q;
      assert Tokens(s) == [[], []] + Prepend(q, [[]]);
      assert [q] + [] == [q];
      assert Prepend(q, [[]]) == [[q]];
    } else {
      assert s[1..] == w[1..] + [q] && s[0] == w[0];
      TokensBeforeSplit(w[1..], q);
      assert Tokens(s) == Prepend(w[0], [w[1..], [], [q]]);
      assert [w[0]] + w[1..] == w;
      assert Prepend(w[0], [w[1..], [], [q]]) == [w, [], [q]];
    }
  }

  /** Swapping a line of tokens is swapping its first token, then the rest. */
  lemma SwapAllCons(w: string, ts: seq<string>, t: Tables, h: Hints)
    requires SwapWord(w, t, h).Ok?
    ensures SwapAll([w] + ts, t, h) ==
              match SwapAll(ts, t, SwapWord(w, t, h).value.1)
              case Fail(e) => Fail(e)
              case Ok((rest, h2)) => Ok((SwapWord(w, t, h).value.0 + rest, h2))
  {
    assert ([w] + ts)[1..] == ts;
  }

  /** A word, an empty separator and a word that stays as it is. */
  lemma SwapAroundSplit(w: string, v: string, x: string, t: Tables, h: Hints)
    requires SwapWord(w, t, h) == Ok((v, h)) && SwapWord(x, t, h) == Ok((x, h))
    ensures SwapAll([w, [], x], t, h) == Ok((v + x, h))
  {
    assert SwapAll([], t, h) == Ok(([], h));
    SwapAllCons(x, [], t, h);
    assert x + [] == x && [x] + [] == [x];
    assert SwapAll([x], t, h) == Ok((x, h));
    assert SwapWord([], t, h) == Ok(([], h));
    SwapAllCons([], [x], t, h);
    assert [[]] + [x] == [[], x] && [] + x == x;
    assert SwapAll([[], x], t, h) == Ok((x, h));
    SwapAllCons(w, [[], x], t, h);
    assert [w] + [[], x] == [w, [], x];
  }

  /** A line that is no directive and holds no "ladies'" is swapped token by token as it is. */
  lemma PlainLine(line: string, t: Tables, h: Hints)
    requires !Contains(line, "ladies'") && !StartsWith(line, "--")
    ensures SwapLine(line, t, h) == SwapAll(Tokens(line), t, h)
  {
    assert Replace(line, "ladies'", "ladies_poss") == line;
  }

  lemma NoDirectiveAfter(w: string, q: char)
    requires w != [] && !StartsWith(w, "--") && q != '-'
    ensures !StartsWith(w + [q], "--")
  {
    var line := w + [q];
    if |w| == 1 {
      assert line[..2] == [w[0], q];
    } else {
      assert line[..2] == w[..2];
    }
  }

  /** A character that splits before it, standing alone, is kept unless it is a term. */
  lemma SplitCharKept(q: char, t: Tables, h: Hints)
    requires SplitsBefore(q) && [q] !in t.terms
    ensures SwapWord([q], t, h) == Ok(([q], h))
  {
    assert Uncapitalised([q]) == [q];
    assert [q] !in BareAbbreviations by {
      assert forall b <- BareAbbreviations :: b[0] in "BSDUAN";
    }
    SwapNothing([q], t, h);
  }

  /**
   * A word directly followed by a character that splits before it, such as a closing curly
   * quote, is swapped as a word of its own: "he”" becomes "she”".
   */
  lemma WordBeforeSplitSwapped(w: string, q: char, t: Tables, h: Hints)
    requires forall c <- w :: !IsSeparator(c) && !SplitsBefore(c) && !SplitsAfter(c)
    requires SplitsBefore(q) && !SplitsAfter(q) && [q] !in t.terms
    requires !Contains(w + [q], "ladies'") && !StartsWith(w, "--")
    requires w != [] && '-' !in w && w !in BareAbbreviations
    requires Uncapitalised(w) in t.terms && Uncapitalised(w) !in {"her", "husband", "mistress"}
    ensures SwapLine(w + [q], t, h) == Ok((Capitalised(t.terms[Uncapitalised(w)], IsUpper(w[0])) + [q], h))
  {
    NoDirectiveAfter(w, q);
    PlainLine(w + [q], t, h);
    TokensBeforeSplit(w, q);
    SwapTerm(w, t, h);
    SplitCharKept(q, t, h);
    SwapAroundSplit(w, Capitalised(t.terms[Uncapitalised(w)], IsUpper(w[0])), [q], t, h);
  }

  /**
   * "her" directly followed by a character that splits before it, as in "her’", is a "her"
   * of the line, and so uses up a HER sense (`HerSensesUsed`).
   */
  lemma HerBeforeSplit(q: char)
    requires SplitsBefore(q) && !SplitsAfter(q)
    ensures HerCount(Tokens("her" + [q])) == 1
  {
    TokensBeforeSplit("her", q);
    assert Uncapitalised([q]) == [q] != "her";
    assert HerCount([[q]]) == 0;
    assert HerCount([[], [q]]) == 0;
    assert Tokens("her" + [q]) == ["her", [], [q]];
  }

  /** A directive line passes through untouched, hints included. */
  lemma DirectiveKept(line: string, t: Tables, h: Hints)
    requires StartsWith(line, "--")
    ensures SwapLine(line, t, h) == Ok((line, h))
  {
  }
}

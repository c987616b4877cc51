/** The audio manager: a thin wrapper over the sound system that plays a
    key only when it is in the audio cache, and picks a random key from a
    comma-delimited list. */
module Audio {
  import opened Common

  const BREAK_GROUP: string := "break_1,break_2,break_3"
  const DIZELCIC_AEROSOL_GROUP: string := "dizelcic_aerosol_1,dizelcic_aerosol_2"

  // ---------------------------------------------------------------------
  // `keys.split(',')`

  /** The pieces between commas, as JavaScript's `split(',')` gives them:
      always at least one, empty pieces included. */
  function Split(s: string): (r: seq<string>)
    decreases |s|
    ensures |r| >= 1
  {
    if s == [] then [""]
    else
      var rest := Split(s[1..]);
      if s[0] == ',' then [""] + rest else [[s[0]] + rest[0]] + rest[1..]
  }

  /** `pieces.join(',')`. */
  function Join(pieces: seq<string>): string
    decreases |pieces|
  {
    if |pieces| <= 1 then (if pieces == [] then "" else pieces[0])
    else pieces[0] + "," + Join(pieces[1..])
  }

  /** Splitting loses nothing: the pieces hold no comma and joining them
      back gives the original list. */
  lemma {:induction false} SplitJoin(s: string)
    decreases |s|
    ensures Join(Split(s)) == s
    ensures forall i :: 0 <= i < |Split(s)| ==> ',' !in Split(s)[i]
  {
    if s != [] {
      var rest := Split(s[1..]);
      SplitJoin(s[1..]);
      if s[0] == ',' {
        assert Split(s) == [""] + rest;
        assert s == "" + "," + s[1..];
      } else {
        var r := Split(s);
        assert r == [[s[0]] + rest[0]] + rest[1..];
        assert r[1..] == rest[1..];
        if |rest| == 1 {
          assert s == [s[0]] + rest[0];
        } else {
          assert Join(rest) == rest[0] + "," + Join(rest[1..]);
          assert s == [s[0]] + (rest[0] + "," + Join(rest[1..]));
        }
        forall i | 0 <= i < |r|
          ensures ',' !in r[i]
        {
          if i == 0 {
            assert ',' !in rest[0];
          } else {
            assert r[i] == rest[i];
          }
        }
      }
    }
  }

  // ---------------------------------------------------------------------
  // `k.trim()`

  /** The white space and line terminators `trim` strips (the other Unicode
      space separators are not part of this model). */
  predicate IsSpace(c: char)
  {
    c == ' ' || c == '\t' || c == '\n' || c == '\r' || c == '\U{B}' || c == '\U{C}' ||
    c == '\U{A0}' || c == '\U{FEFF}' || c == '\U{2028}' || c == '\U{2029}'
  }

  /** Drop the leading white space: what is left starts with something
      else. */
  function TrimStart(s: string): (r: string)
    decreases |s|
    ensures |r| <= |s|
    ensures r != [] ==> !IsSpace(r[0])
  {
    if s != [] && IsSpace(s[0]) then TrimStart(s[1..]) else s
  }

  /** What `TrimStart` leaves is a suffix, and everything it drops is white
      space. */
  lemma {:induction false} TrimStartSuffix(s: string)
    decreases |s|
    ensures TrimStart(s) == s[|s| - |TrimStart(s)|..]
    ensures forall k :: 0 <= k < |s| - |TrimStart(s)| ==> IsSpace(s[k])
  {
    if s != [] && IsSpace(s[0]) {
      TrimStartSuffix(s[1..]);
    }
  }

  /** Drop the trailing white space: what is left ends with something
      else. */
  function TrimEnd(s: string): (r: string)
    decreases |s|
    ensures |r| <= |s|
    ensures r != [] ==> !IsSpace(r[|r| - 1])
  {
    if s != [] && IsSpace(s[|s| - 1]) then TrimEnd(s[..|s| - 1]) else s
  }

  /** What `TrimEnd` leaves is a prefix, and everything it drops is white
      space. */
  lemma {:induction false} TrimEndPrefix(s: string)
    decreases |s|
    ensures TrimEnd(s) == s[..|TrimEnd(s)|]
    ensures forall k :: |TrimEnd(s)| <= k < |s| ==> IsSpace(s[k])
  {
    if s != [] && IsSpace(s[|s| - 1]) {
      TrimEndPrefix(s[..|s| - 1]);
    }
  }

  function Trim(s: string): (r: string)
  {
    TrimEnd(TrimStart(s))
  }

  /** Where the trimmed key starts in the original. */
  function TrimOffset(s: string): (i: nat)
    ensures i + |Trim(s)| <= |s|
  {
    |s| - |TrimStart(s)|
  }

  /** A trimmed key is a run of the original that neither starts nor ends
      with white space, and trimming it again changes nothing. */
  lemma TrimmedKey(s: string)
    ensures var r := Trim(s);
            r == s[TrimOffset(s)..TrimOffset(s) + |r|] &&
            (r != [] ==> !IsSpace(r[0]) && !IsSpace(r[|r| - 1])) &&
            Trim(r) == r
  {
    var t := TrimStart(s);
    var r := TrimEnd(t);
    TrimStartSuffix(s);
    TrimEndPrefix(t);
    if r != [] {
      assert r[0] == t[0];
    }
  }

  // ---------------------------------------------------------------------
  // `keys.split(',').map(k => k.trim()).filter(Boolean)`

  function NonEmpty(): string -> Option<string>
  {
    Keep((k: string) => k != "")
  }

  /** `pieces.map(k => k.trim())`. */
  function TrimAll(pieces: seq<string>): (r: seq<string>)
    decreases |pieces|
    ensures |r| == |pieces|
    ensures forall i :: 0 <= i < |r| ==> r[i] == Trim(pieces[i])
  {
    if pieces == [] then [] else [Trim(pieces[0])] + TrimAll(pieces[1..])
  }

  /** The key list `playRandom` picks from. */
  function KeyList(keys: string): (r: seq<string>)
  {
    FilterMap(TrimAll(Split(keys)), NonEmpty())
  }

  /** A comma-free string has comma-free runs. */
  lemma RunWithoutComma(s: string, i: nat, n: nat)
    requires i + n <= |s| && ',' !in s
    ensures ',' !in s[i..i + n]
  {
  }

  /** A trimmed piece of the list is free of commas and of surrounding
      white space. */
  lemma TrimmedPiece(keys: string, i: nat)
    requires i < |Split(keys)|
    ensures var k := Trim(Split(keys)[i]);
            ',' !in k && (k != "" ==> !IsSpace(k[0]) && !IsSpace(k[|k| - 1]))
  {
    var piece := Split(keys)[i];
    SplitJoin(keys);
    assert ',' !in piece;
    TrimmedKey(piece);
    RunWithoutComma(piece, TrimOffset(piece), |Trim(piece)|);
  }

  /** The key list holds exactly the non-empty trimmed pieces. */
  lemma KeyListKeys(keys: string, k: string)
    ensures k in KeyList(keys) <==> k != "" && k in TrimAll(Split(keys))
  {
    KeepExactly(TrimAll(Split(keys)), (t: string) => t != "", k);
  }

  /** Each key of the list is free of commas and of surrounding white
      space. */
  lemma KeyListClean(keys: string, k: string)
    requires k in KeyList(keys)
    ensures k != "" && ',' !in k && !IsSpace(k[0]) && !IsSpace(k[|k| - 1])
  {
    var trimmed := TrimAll(Split(keys));
    KeyListKeys(keys, k);
    var i :| 0 <= i < |trimmed| && trimmed[i] == k;
    TrimmedPiece(keys, i);
  }

  /** A comma-free list is one piece. */
  lemma {:induction false} SplitNoComma(a: string)
    requires ',' !in a
    decreases |a|
    ensures Split(a) == [a]
  {
    if a != [] {
      SplitNoComma(a[1..]);
      assert [a[0]] + a[1..] == a;
    }
  }

  /** A comma-free first piece is split off whole. */
  lemma {:induction false} SplitFirst(a: string, b: string)
    requires ',' !in a
    decreases |a|
    ensures Split(a + "," + b) == [a] + Split(b)
  {
    if a == [] {
      assert a + "," + b == [','] + b;
      assert (a + "," + b)[1..] == b;
    } else {
      SplitFirst(a[1..], b);
      var s := a + "," + b;
      assert s[0] == a[0] && s[1..] == a[1..] + "," + b;
      assert [a[0]] + a[1..] == a;
    }
  }

  /** A key with no surrounding white space trims to itself. */
  lemma TrimPlain(k: string)
    requires k != [] && !IsSpace(k[0]) && !IsSpace(k[|k| - 1])
    ensures Trim(k) == k
  {
  }

  const BREAK_KEYS: seq<string> := ["break_1", "break_2", "break_3"]

  lemma BreakTail()
    ensures Split("break_2" + "," + "break_3") == BREAK_KEYS[1..]
  {
    SplitNoComma("break_3");
    SplitFirst("break_2", "break_3");
  }

  lemma BreakPieces()
    ensures Split(BREAK_GROUP) == BREAK_KEYS
  {
    var tail := "break_2" + "," + "break_3";
    BreakTail();
    assert Split("break_1" + "," + tail) == BREAK_KEYS by {
      SplitFirst("break_1", tail);
    }
    assert BREAK_GROUP == "break_1" + "," + tail;
  }

  lemma BreakTrimmed()
    ensures TrimAll(BREAK_KEYS) == BREAK_KEYS
  {
    TrimPlain("break_1");
    TrimPlain("break_2");
    TrimPlain("break_3");
    assert TrimAll(BREAK_KEYS[2..]) == BREAK_KEYS[2..];
    assert TrimAll(BREAK_KEYS[1..]) == BREAK_KEYS[1..];
  }

  /** The break group parses to exactly its three keys. */
  lemma BreakGroup()
    ensures KeyList(BREAK_GROUP) == BREAK_KEYS
  {
    BreakPieces();
    BreakTrimmed();
    assert FilterMap(BREAK_KEYS[2..], NonEmpty()) == BREAK_KEYS[2..];
    assert FilterMap(BREAK_KEYS[1..], NonEmpty()) == BREAK_KEYS[1..];
  }

  // ---------------------------------------------------------------------
  // The pick and the play.

  /** `list[Math.floor(r * list.length)]`, or nothing for an empty list. */
  function Pick(list: seq<string>, r: Unit): (k: Option<string>)
    ensures k.None? <==> list == []
    ensures k.Some? ==> k.value in list
  {
    if list == [] then None
    else
      var n := |list| as real;
      assert r * n < n by {
        assert (1.0 - r) * n > 0.0;
      }
      var i := (r * n).Floor;
      Some(list[i])
  }

  /** The key played for `key` when the cache holds `cache`. */
  function Sounded(key: Option<string>, cache: set<string>): (s: seq<string>)
    ensures |s| <= 1
    ensures s != [] <==> key.Some? && key.value in cache
  {
    if key.Some? && key.value in cache then [key.value] else []
  }

  class AudioManager {
    /** The keys in the scene's audio cache. */
    const cache: set<string>
    /** The keys handed to the sound system, oldest first. */
    var played: seq<string>

    constructor (cache0: set<string>)
      ensures cache == cache0 && played == []
    {
      cache := cache0;
      played := [];
    }

    /** `play(key)`: only a cached key reaches the sound system. */
    method Play(key: string)
      modifies this
      ensures played == old(played) + Sounded(Some(key), cache)
    {
      if key in cache {
        played := played + [key];
      }
    }

    /** `playRandom(keys)`; `r` is the `Math.random()` draw. */
    method PlayRandom(keys: string, r: Unit)
      modifies this
      ensures played == old(played) + Sounded(Pick(KeyList(keys), r), cache)
      ensures |played| <= |old(played)| + 1
    {
      var list := KeyList(keys);
      if |list| == 0 {
        return;
      }
      var picked := Pick(list, r);
      Play(picked.value);
    }
  }
}

/**
 What becomes of a path and a mode in the archive, in terms of the characters of the path.
 */
module ZipPaths {
  import opened Common
  import opened Zip

  /** The characters from `i` to `j` are a whole piece between slashes. */
  predicate Piece(path: string, i: int, j: int) {
    && 0 <= i <= j <= |path| && '/' !in path[i..j]
    && (i == 0 || path[i - 1] == '/') && (j == |path| || path[j] == '/')
  }

  /** No piece is empty, a dot or a dot-dot. */
  ghost predicate NoDots(path: string) {
    forall i, j | Piece(path, i, j) :: path[i..j] != "" && path[i..j] != "." && path[i..j] != ".."
  }

  ghost predicate IsPiece(path: string, s: string) {
    exists i, j :: Piece(path, i, j) && path[i..j] == s
  }

  /** The first part is the piece at the start. */
  lemma {:induction false} FirstPart(path: string)
    ensures var first := Split(path)[0]; first <= path && Piece(path, 0, |first|)
  {
    if path != "" && path[0] != '/' {
      FirstPart(path[1..]);
      var n := |Split(path[1..])[0]|;
      assert path[0..n + 1] == [path[0]] + path[1..][0..n] && path[..n + 1] == path[0..n + 1];
    }
  }

  lemma PieceBefore(path: string, i: int, j: int)
    requires path != "" && Piece(path, i, j) && i > 0
    ensures Piece(path[1..], i - 1, j - 1) && path[1..][i - 1..j - 1] == path[i..j]
  {
    assert path[1..][i - 1..j - 1] == path[i..j];
  }

  /** The parts after the first are the pieces after the start. */
  lemma {:induction false} PartsArePieces(path: string)
    ensures forall s | s in Split(path)[1..] :: exists i, j :: Piece(path, i, j) && path[i..j] == s && i > 0
  {
    if path != "" {
      var rest := Split(path[1..]);
      PartsArePieces(path[1..]);
      FirstPart(path[1..]);
      forall s | s in Split(path)[1..] ensures exists i, j :: Piece(path, i, j) && path[i..j] == s && i > 0 {
        if s in rest[1..] {
          var i, j :| Piece(path[1..], i, j) && path[1..][i..j] == s && i > 0;
          assert Piece(path, i + 1, j + 1) && path[i + 1..j + 1] == path[1..][i..j];
        } else {
          var n := |rest[0]|;
          assert path[0] == '/' && s == rest[0] == path[1..][..n];
          assert Piece(path, 1, n + 1) && path[1..n + 1] == path[1..][..n];
        }
      }
    }
  }

  lemma {:induction false} PiecesAreParts(path: string, i: int, j: int)
    requires Piece(path, i, j)
    ensures if i == 0 then Split(path)[0] == path[i..j] else path[i..j] in Split(path)[1..]
  {
    if path != "" {
      var rest := Split(path[1..]);
      if i == 0 {
        SamePiece(path, j);
      } else if i == 1 {
        PieceBefore(path, i, j);
        PiecesAreParts(path[1..], 0, j - 1);
        assert Split(path) == [""] + rest;
      } else {
        PieceBefore(path, i, j);
        PiecesAreParts(path[1..], i - 1, j - 1);
        assert path[i..j] in rest[1..];
        if path[0] == '/' { assert Split(path)[1..] == rest; } else { assert Split(path)[1..] == rest[1..]; }
      }
    }
  }

  /** There is only one piece at the start. */
  lemma SamePiece(path: string, j: int)
    requires Piece(path, 0, j)
    ensures Split(path)[0] == path[..j]
  {
    FirstPart(path);
  }

  lemma PlainIff(path: string)
    ensures PlainSegments(path) <==> NoDots(path)
  {
    var parts := Split(path);
    FirstPart(path);
    PartsArePieces(path);
    forall i, j | Piece(path, i, j) ensures path[i..j] in parts {
      PiecesAreParts(path, i, j);
    }
    forall s | s in parts ensures IsPiece(path, s) {
      if s !in parts[1..] {
        assert s == parts[0] == path[0..|s|] && Piece(path, 0, |s|);
      }
    }
  }

  predicate SlashLike(c: char) {
    c == '/' || c == '\\'
  }

  lemma {:induction false} LeadingGoes(lead: string, rest: string)
    requires (forall c | c in lead :: c == '/') && (rest == "" || rest[0] != '/')
    ensures StripLeading(lead + rest) == rest
  {
    if lead == "" {
      assert lead + rest == rest;
    } else {
      assert lead[0] in lead && (lead + rest)[1..] == lead[1..] + rest;
      assert forall c | c in lead[1..] :: c in lead;
      LeadingGoes(lead[1..], rest);
    }
  }

  /** Slashes and backslashes in front are dropped and the other backslashes become slashes; what is left is refused
      exactly when it is nothing or has a piece that is empty, a dot or a dot-dot. */
  lemma NormalizeIff(lead: string, rest: string, r: string)
    requires (forall c | c in lead :: SlashLike(c)) && (rest == "" || !SlashLike(rest[0]))
    requires |r| == |rest| && forall k | 0 <= k < |r| :: r[k] == if rest[k] == '\\' then '/' else rest[k]
    ensures Normalize(lead + rest) == if rest != "" && NoDots(r) then Some(r) else None
  {
    assert Slashes(rest) == r && Slashes(lead + rest) == Slashes(lead) + r;
    forall c | c in Slashes(lead) ensures c == '/' {
      var k :| 0 <= k < |lead| && Slashes(lead)[k] == c;
      assert lead[k] in lead;
    }
    LeadingGoes(Slashes(lead), r);
    PlainIff(r);
  }

  /** A file without a mode is a regular file that its owner may write and all may read; of a mode the lower sixteen
      bits count. */
  lemma ModesOfFiles(low: nat, high: nat)
    requires low < 65_536
    ensures ModeBits(None) == 8 * 4096 + 6 * 64 + 4 * 8 + 4
    ensures ModeBits(Some(65_536 * high + low)) == low
  {
  }
}

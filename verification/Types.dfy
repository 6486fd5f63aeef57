/** The vocabulary shared by the sync engine's modules. */
module Types {

  datatype Option<+T> = None | Some(value: T)

  /** A relative path, already in its canonical (NFC) form. */
  type Path = string

  /** File contents. A checksum is taken to name its bytes, so the two are one value. */
  type Content = nat

  /** The empty file, which rename detection never matches. */
  const EMPTY: Content := 0

  type FileId = nat

  datatype Status = Synced | PendingUpload | PendingDownload | PendingDelete | Error

  /** One row of the `files` table. */
  datatype Row = Row(
    fileId: Option<FileId>,
    local: Option<Content>,
    server: Option<Content>,
    at: nat,           // serverSeq
    status: Status)

  /** A server event, without its sequence number. */
  datatype Change =
    | Added(path: Path, id: FileId, bytes: Content)
    | Replaced(path: Path, id: FileId, bytes: Content)
    | Removed(path: Path)
    | Renamed(from: Path, path: Path, id: FileId, bytes: Content)

  /** ASCII lower-casing, one character at a time. */
  function Lower(c: char): char {
    if 'A' <= c <= 'Z' then c - 'A' + 'a' else c
  }

  function Fold(p: Path): Path {
    seq(|p|, i requires 0 <= i < |p| => Lower(p[i]))
  }

  /** The two letters, one of each case. */
  predicate CasePair(a: char, b: char) {
    ('A' <= a <= 'Z' && b as int == a as int + 32) || ('A' <= b <= 'Z' && a as int == b as int + 32)
  }

  /** Names fold alike exactly when they are the same but for the case of ASCII letters. */
  lemma FoldAnswer(p: Path, q: Path)
    ensures Fold(p) == Fold(q)
            <==> |p| == |q| && forall i :: 0 <= i < |p| ==> p[i] == q[i] || CasePair(p[i], q[i])
    ensures Fold(Fold(p)) == Fold(p)
  {
    assert forall i :: 0 <= i < |p| && |p| == |q| ==> (Fold(p)[i] == Fold(q)[i] <==> Lower(p[i]) == Lower(q[i]));
    forall i | 0 <= i < |p| && |p| == |q| ensures Lower(p[i]) == Lower(q[i]) <==> p[i] == q[i] || CasePair(p[i], q[i]) {
      LowerAnswer(p[i], q[i]);
    }
  }

  lemma LowerAnswer(a: char, b: char)
    ensures Lower(a) == Lower(b) <==> a == b || CasePair(a, b)
    ensures Lower(Lower(a)) == Lower(a)
  {
    assert 'A' <= a <= 'Z' ==> Lower(a) as int == a as int + 32;
    assert 'A' <= b <= 'Z' ==> Lower(b) as int == b as int + 32;
  }
}

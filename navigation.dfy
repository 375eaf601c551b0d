/**
 * Next/Previous image: the position of the current file in the sorted list of
 * image files, moved by one and wrapped around with Python's `%`.
 */
module Navigation {
  import opened Wrappers
  import opened Labels
  import opened Text

  /** The folder that `next_image` and `prev_image` load from. */
  const UnlabeledPath: string := "Unlabeled_Data"

  /**
   * `os.path.join(folder, name)` for a folder without a trailing '/' and a
   * relative, non-empty file name, as a directory listing yields; an absolute
   * or empty name, which Python would treat differently, does not arise.
   */
  function JoinPath(folder: string, name: string): (p: string)
    ensures |p| == |folder| + 1 + |name|
    ensures p[..|folder|] == folder && p[|folder|] == '/' && p[|folder| + 1..] == name
  {
    folder + "/" + name
  }

  /** `(i + 1) % n`: one step on, from the last file back to the first. */
  function NextIndex(i: nat, n: nat): (r: nat)
    requires i < n
    ensures r < n
    ensures r == if i == n - 1 then 0 else i + 1
  {
    (i + 1) % n
  }

  /** `(i - 1) % n` with Python's non-negative remainder: one step back, from the first file to the last. */
  function PrevIndex(i: nat, n: nat): (r: nat)
    requires i < n
    ensures r < n
    ensures r == if i == 0 then n - 1 else i - 1
  {
    (i as int - 1) % n
  }

  /** One step back undoes one step on, and the other way round. */
  lemma PrevUndoesNext(i: nat, n: nat)
    requires i < n
    ensures PrevIndex(NextIndex(i, n), n) == i
    ensures NextIndex(PrevIndex(i, n), n) == i
  {
  }

  datatype Direction = Next | Previous

  /** What a Next/Previous click does: a warning, an information message, nothing, or a file to open. */
  datatype Step = NoImageLoaded | NoImages | NotListed | Open(file: string)

  /**
   * `next_image` / `prev_image` for the image at `currentPath` among the sorted
   * image `files`: with no image loaded or no files it reports that; when the
   * current file is not listed it does nothing; otherwise it opens the file
   * one position on (or back), wrapping at either end.
   */
  function Navigate(currentPath: string, files: seq<string>, dir: Direction): (s: Step)
    ensures s == NoImageLoaded <==> currentPath == ""
    ensures s == NoImages <==> currentPath != "" && files == []
    ensures s == NotListed <==> currentPath != "" && files != [] && BaseName(currentPath) !in files
    ensures s.Open? ==> BaseName(currentPath) in files && s.file in files
    ensures s.Open? ==>
      var i := IndexOf(files, BaseName(currentPath)).value;
      s.file == files[if dir == Next then NextIndex(i, |files|) else PrevIndex(i, |files|)]
  {
    if currentPath == "" then NoImageLoaded
    else if files == [] then NoImages
    else
      match IndexOf(files, BaseName(currentPath))
      case None => NotListed
      case Some(i) =>
        Open(files[if dir == Next then NextIndex(i, |files|) else PrevIndex(i, |files|)])
  }

  /** The base name of `folder/name` is `name` when `name` holds no '/'. */
  lemma {:induction false} BaseNameOfJoin(folder: string, name: string)
    requires '/' !in name
    ensures BaseName(JoinPath(folder, name)) == name
    decreases |name|
  {
    var p := JoinPath(folder, name);
    if name == [] {
      assert p[|p| - 1] == '/';
    } else {
      var n := |name| - 1;
      assert p[..|p| - 1] == JoinPath(folder, name[..n]);
      assert '/' !in name[..n] by { assert forall c :: c in name[..n] ==> c in name; }
      BaseNameOfJoin(folder, name[..n]);
      assert p[|p| - 1] == name[n];
      assert name == name[..n] + [name[n]];
    }
  }

  /** Navigation from a file listed at position i opens the file one step on or back from i. */
  lemma NavigateFrom(currentPath: string, files: seq<string>, dir: Direction, i: nat)
    requires currentPath != "" && IndexOf(files, BaseName(currentPath)) == Some(i)
    ensures i < |files|
    ensures Navigate(currentPath, files, dir)
      == Open(files[if dir == Next then NextIndex(i, |files|) else PrevIndex(i, |files|)])
  {
  }

  /**
   * Previous after Next comes back to the starting image: in a listing with
   * distinct names that contain no '/', opening the next file from the
   * unlabeled folder and then stepping back opens the current file again.
   */
  lemma NextThenPrevious(currentPath: string, files: seq<string>)
    requires NoDuplicates(files) && forall f :: f in files ==> '/' !in f
    requires currentPath != "" && BaseName(currentPath) in files
    ensures Navigate(currentPath, files, Next).Open?
    ensures Navigate(JoinPath(UnlabeledPath, Navigate(currentPath, files, Next).file), files, Previous)
      == Open(BaseName(currentPath))
  {
    var i := IndexOf(files, BaseName(currentPath)).value;
    var j := NextIndex(i, |files|);
    NavigateFrom(currentPath, files, Next, i);
    var p := JoinPath(UnlabeledPath, files[j]);
    BaseNameOfJoin(UnlabeledPath, files[j]);
    IndexOfPosition(files, j);
    NavigateFrom(p, files, Previous, j);
    PrevUndoesNext(i, |files|);
  }
}

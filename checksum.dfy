/** The file checksum of the uploader: the file is read in blocks of at most
    8 KiB, each fed into one running digest. The digest function itself (MD5
    and its hex rendering) is a parameter. */
module Checksum {
  import opened Base

  const FileChunk: nat := 8192

  function Min(a: int, b: int): int
  {
    if a <= b then a else b
  }

  /** Number of blocks read for a file of `size` bytes: the ceiling of
      size / FileChunk, computed on integers. */
  function BlockCount(size: nat): (n: nat)
    ensures n * FileChunk >= size
    ensures n == 0 || (n - 1) * FileChunk < size
    ensures n == 0 <==> size == 0
  {
    (size + FileChunk - 1) / FileChunk
  }

  /** Size of block `i`: a full block, or what is left of the file. */
  function BlockSize(size: nat, i: nat): int
  {
    Min(FileChunk, size - i * FileChunk)
  }

  /** Every block but the last is a full one; the last holds the rest. */
  lemma BlocksFullButLast(size: nat)
    requires size > 0
    ensures forall i :: 0 <= i < BlockCount(size) - 1 ==> BlockSize(size, i) == FileChunk
    ensures BlockSize(size, BlockCount(size) - 1) == size - (BlockCount(size) - 1) * FileChunk
    ensures 0 < BlockSize(size, BlockCount(size) - 1) <= FileChunk
  {
    var n := BlockCount(size);
    forall i | 0 <= i < n - 1
      ensures BlockSize(size, i) == FileChunk
    {
      assert (i + 1) * FileChunk <= (n - 1) * FileChunk;
    }
  }

  function Sum(s: seq<nat>): nat
  {
    if s == [] then 0 else Sum(s[..|s| - 1]) + s[|s| - 1]
  }

  lemma SumAppend(s: seq<nat>, x: nat)
    ensures Sum(s + [x]) == Sum(s) + x
  {
    assert (s + [x])[..|s|] == s;
  }

  /** The checksum of the file whose open yields `file`. Besides the digest it
      returns the sizes of the buffers read, in order. */
  method GetMd5(file: Result<seq<byte>>, digest: seq<byte> -> string) returns (r: Result<string>, sizes: seq<nat>)
    ensures file.Err? ==> r == Err(file.error) && sizes == []
    ensures file.Ok? ==> r == Ok(digest(file.value))
    ensures file.Ok? ==> |sizes| == BlockCount(|file.value|)
    ensures forall i :: 0 <= i < |sizes| ==> 0 < sizes[i] <= FileChunk
    ensures file.Ok? ==> forall i :: 0 <= i < |sizes| ==> sizes[i] == BlockSize(|file.value|, i)
    ensures file.Ok? ==> Sum(sizes) == |file.value|
  {
    if file.Err? {
      return Err(file.error), [];
    }
    var content := file.value;
    var size := |content|;
    var blocks := BlockCount(size);
    var fed: seq<byte> := [];
    var pos := 0;
    sizes := [];
    var i := 0;
    while i < blocks
      invariant 0 <= i <= blocks && |sizes| == i
      invariant pos == Min(i * FileChunk, size)
      invariant pos == Sum(sizes)
      invariant forall j :: 0 <= j < i ==> 0 < sizes[j] <= FileChunk && sizes[j] == BlockSize(size, j)
      invariant fed == content[..pos]
    {
      var blockSize := BlockSize(size, i);
      var buf := content[pos..pos + blockSize];
      fed := fed + buf;
      SumAppend(sizes, blockSize);
      sizes := sizes + [blockSize];
      pos := pos + blockSize;
      i := i + 1;
    }
    assert fed == content;
    r := Ok(digest(fed));
  }
}

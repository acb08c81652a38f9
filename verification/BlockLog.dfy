/**
  The block log: one line per block, appended before a block counts as committed. Opening it after a crash at any byte
  of an append yields exactly the fully written blocks and cuts the file back to them.
 */
module BlockLog {
  import opened Core
  import opened Encoding

  const NEWLINE: Byte := 10

  /** The block format: what a block is written as, and what a line reads as. */
  datatype Json<!B> = Json(write: B -> Bytes, read: Bytes -> Option<B>)

  /** Writing and reading are inverse, and a written block holds no line break. */
  ghost predicate Inverse<B(!new)>(j: Json<B>) {
    forall b: B :: NEWLINE !in j.write(b) && j.read(j.write(b) + [NEWLINE]) == Some(b)
  }

  function Line<B>(j: Json<B>, b: B): Bytes { j.write(b) + [NEWLINE] }

  /** The file that holds exactly these blocks. */
  function Written<B>(j: Json<B>, blocks: seq<B>): Bytes {
    if blocks == [] then [] else Written(j, blocks[..|blocks| - 1]) + Line(j, blocks[|blocks| - 1])
  }

  /** Position just past the next line break, or -1 when none is left. */
  function NextLine(file: Bytes, i: nat): (e: int)
    requires i <= |file|
    ensures e == -1 || i < e <= |file|
    ensures e == -1 ==> forall k :: i <= k < |file| ==> file[k] != NEWLINE
    ensures e >= 0 ==> file[e - 1] == NEWLINE && forall k :: i <= k < e - 1 ==> file[k] != NEWLINE
    decreases |file| - i
  {
    if i == |file| then -1 else if file[i] == NEWLINE then i + 1 else NextLine(file, i + 1)
  }

  /** Files, read line by line from position i; None when a complete line is not a block. */
  function Blocks<B>(j: Json<B>, file: Bytes, i: nat): Option<seq<B>>
    requires i <= |file|
    decreases |file| - i
  {
    var e := NextLine(file, i);
    if e < 0 then Some([])
    else
      match j.read(file[i..e])
      case None => None
      case Some(b) =>
        match Blocks(j, file, e)
        case None => None
        case Some(bs) => Some([b] + bs)
  }

  /** Where the complete lines end. */
  function GoodEnd(file: Bytes, i: nat): (g: nat)
    requires i <= |file|
    ensures i <= g <= |file|
    decreases |file| - i
  {
    var e := NextLine(file, i);
    if e < 0 then i else GoodEnd(file, e)
  }

  /** One more line is one more block. */
  lemma AppendWrites<B(!new)>(j: Json<B>, blocks: seq<B>, b: B)
    ensures Written(j, blocks) + Line(j, b) == Written(j, blocks + [b])
  {
    assert (blocks + [b])[..|blocks|] == blocks;
  }

  class Log<B(!new)> {
    const json: Json<B>
    /** The file's bytes. */
    var file: Bytes

    constructor (j: Json<B>, bytes: Bytes)
      ensures json == j && file == bytes
    {
      json, file := j, bytes;
    }

    /**
      Reads every complete line, drops a torn last one and truncates the file to what was read; a complete line that is
      no block makes the log corrupt and leaves the file alone.
     */
    method Open() returns (blocks: Option<seq<B>>)
      modifies this
      ensures blocks == Blocks(json, old(file), 0)
      ensures file == if blocks.Some? then old(file)[..GoodEnd(old(file), 0)] else old(file)
    {
      var read: seq<B> := [];
      var good := 0;
      assert forall bs: seq<B> :: read + bs == bs;
      while true
        invariant 0 <= good <= |file| && file == old(file)
        invariant Blocks(json, file, 0)
          == match Blocks(json, file, good) case None => None case Some(bs) => Some(read + bs)
        invariant GoodEnd(file, 0) == GoodEnd(file, good)
        decreases |file| - good
      {
        var e := NextLine(file, good);
        if e < 0 {
          break;
        }
        match json.read(file[good..e])
        case None => return None;
        case Some(b) =>
          assert forall bs: seq<B> :: read + ([b] + bs) == (read + [b]) + bs;
          read := read + [b];
          good := e;
      }
      file := file[..good];
      assert read + [] == read;
      blocks := Some(read);
    }

    /** Adds one block; the write reaches the disk whole or the process stops. */
    method Append(b: B)
      modifies this
      ensures file == old(file) + Line(json, b)
      ensures forall blocks: seq<B> :: old(file) == Written(json, blocks) ==> file == Written(json, blocks + [b])
    {
      file := file + json.write(b) + [NEWLINE];
      forall blocks: seq<B> ensures Written(json, blocks) + Line(json, b) == Written(json, blocks + [b]) {
        AppendWrites(json, blocks, b);
      }
    }
  }

  // ---------------------------------------------------------------- recovery

  lemma LineFound<B(!new)>(j: Json<B>, b: B, pre: Bytes, post: Bytes)
    requires Inverse(j)
    ensures var file := pre + Line(j, b) + post;
      NextLine(file, |pre|) == |pre| + |Line(j, b)| && file[|pre|..|pre| + |Line(j, b)|] == Line(j, b)
  {
    var file, w := pre + Line(j, b) + post, j.write(b);
    assert file[|pre|..|pre| + |w| + 1] == Line(j, b);
    forall k | |pre| <= k < |pre| + |w| ensures file[k] != NEWLINE {
      assert file[k] == w[k - |pre|] && w[k - |pre|] in w;
    }
    assert file[|pre| + |w|] == NEWLINE;
  }

  lemma NoLine(pre: Bytes, torn: Bytes)
    requires NEWLINE !in torn
    ensures NextLine(pre + torn, |pre|) == -1
  {
    var file := pre + torn;
    forall k | |pre| <= k < |file| ensures file[k] != NEWLINE {
      assert file[k] == torn[k - |pre|] && torn[k - |pre|] in torn;
    }
  }

  /** Reading on from the first k blocks gives the rest and stops where they end. */
  lemma {:induction false} ReadsFrom<B(!new)>(j: Json<B>, blocks: seq<B>, torn: Bytes, k: nat)
    requires Inverse(j) && NEWLINE !in torn && k <= |blocks|
    ensures var file, at := Written(j, blocks) + torn, |Written(j, blocks[..k])|;
      at <= |file| && Blocks(j, file, at) == Some(blocks[k..]) && GoodEnd(file, at) == |Written(j, blocks)|
    decreases |blocks| - k
  {
    WrittenPrefix(j, blocks, k);
    if k == |blocks| {
      ReadsNoMore(j, blocks, torn);
    } else {
      ReadsFrom(j, blocks, torn, k + 1);
      ReadsOne(j, blocks, torn, k);
    }
  }

  lemma ReadsNoMore<B(!new)>(j: Json<B>, blocks: seq<B>, torn: Bytes)
    requires NEWLINE !in torn
    ensures var file, at := Written(j, blocks) + torn, |Written(j, blocks[..|blocks|])|;
      at <= |file| && Blocks(j, file, at) == Some(blocks[|blocks|..]) && GoodEnd(file, at) == |Written(j, blocks)|
  {
    hide NextLine, Written;
    assert blocks[..|blocks|] == blocks && blocks[|blocks|..] == [];
    NoLine(Written(j, blocks), torn);
  }

  lemma ReadsOne<B(!new)>(j: Json<B>, blocks: seq<B>, torn: Bytes, k: nat)
    requires Inverse(j) && k < |blocks|
    requires var file, at := Written(j, blocks) + torn, |Written(j, blocks[..k + 1])|;
      at <= |file| && Blocks(j, file, at) == Some(blocks[k + 1..]) && GoodEnd(file, at) == |Written(j, blocks)|
    ensures var file, at := Written(j, blocks) + torn, |Written(j, blocks[..k])|;
      at <= |file| && Blocks(j, file, at) == Some(blocks[k..]) && GoodEnd(file, at) == |Written(j, blocks)|
  {
    hide NextLine, Written, Line, Inverse, Blocks, GoodEnd;
    var post := NextWritten(j, blocks, torn, k);
    LineFound(j, blocks[k], Written(j, blocks[..k]), post);
    LineReads(j, blocks[k]);
    var file, at := Written(j, blocks) + torn, |Written(j, blocks[..k])|;
    BlocksStep(j, file, at, |Written(j, blocks[..k + 1])|, blocks[k], blocks[k + 1..]);
    assert blocks[k..] == [blocks[k]] + blocks[k + 1..];
  }

  /** One line read, and then the rest. */
  lemma BlocksStep<B(!new)>(j: Json<B>, file: Bytes, at: nat, e: nat, b: B, rest: seq<B>)
    requires at <= |file| && NextLine(file, at) == e <= |file| && at <= e && j.read(file[at..e]) == Some(b)
    requires Blocks(j, file, e) == Some(rest)
    ensures Blocks(j, file, at) == Some([b] + rest) && GoodEnd(file, at) == GoodEnd(file, e)
  {}

  lemma LineReads<B(!new)>(j: Json<B>, b: B)
    requires Inverse(j)
    ensures j.read(Line(j, b)) == Some(b)
  {}

  /** The file around block k: what is before it, its line, and what follows. */
  lemma NextWritten<B(!new)>(j: Json<B>, blocks: seq<B>, torn: Bytes, k: nat) returns (post: Bytes)
    requires k < |blocks|
    ensures Written(j, blocks) + torn == Written(j, blocks[..k]) + Line(j, blocks[k]) + post
    ensures |Written(j, blocks[..k + 1])| == |Written(j, blocks[..k])| + |Line(j, blocks[k])|
  {
    var file, next := Written(j, blocks) + torn, blocks[..k + 1];
    WrittenPrefix(j, blocks, k + 1);
    assert next[..k] == blocks[..k];
    post := file[|Written(j, next)|..];
    assert file[..|Written(j, next)|] == Written(j, next);
  }

  lemma {:induction false} WrittenPrefix<B(!new)>(j: Json<B>, blocks: seq<B>, k: nat)
    requires k <= |blocks|
    ensures |Written(j, blocks[..k])| <= |Written(j, blocks)|
    ensures Written(j, blocks)[..|Written(j, blocks[..k])|] == Written(j, blocks[..k])
    decreases |blocks| - k
  {
    if k == |blocks| {
      assert blocks[..k] == blocks;
    } else {
      WrittenPrefix(j, blocks, k + 1);
      var next := blocks[..k + 1];
      assert next[..k] == blocks[..k];
      assert Written(j, next) == Written(j, blocks[..k]) + Line(j, blocks[k]);
    }
  }

  lemma TornHasNoBreak<B(!new)>(j: Json<B>, b: B, cut: nat)
    requires Inverse(j) && cut < |Line(j, b)|
    ensures NEWLINE !in Line(j, b)[..cut]
  {
    assert Line(j, b)[..cut] == j.write(b)[..cut];
  }

  /**
    Recovery after a crash: when the process stops after any cut of the bytes of an append, opening the log yields the
    blocks written before, and this one exactly when its last byte made it; the rest of the torn line is gone.
   */
  lemma CrashRecovery<B(!new)>(j: Json<B>, blocks: seq<B>, b: B, cut: nat)
    requires Inverse(j) && cut <= |Line(j, b)|
    ensures var file := Written(j, blocks) + Line(j, b)[..cut];
      var kept := if cut == |Line(j, b)| then blocks + [b] else blocks;
      Blocks(j, file, 0) == Some(kept) && file[..GoodEnd(file, 0)] == Written(j, kept)
  {
    var file := Written(j, blocks) + Line(j, b)[..cut];
    if cut == |Line(j, b)| {
      var all := blocks + [b];
      assert all[..|blocks|] == blocks;
      assert file == Written(j, all) + [];
      ReadsFrom(j, all, [], 0);
      assert all[..0] == [] && all[0..] == all;
      assert file[..|Written(j, all)|] == Written(j, all);
    } else {
      TornHasNoBreak(j, b, cut);
      ReadsFrom(j, blocks, Line(j, b)[..cut], 0);
      assert blocks[..0] == [] && blocks[0..] == blocks;
      assert file[..|Written(j, blocks)|] == Written(j, blocks);
    }
  }

  /** Opening a log after a crash in the middle of an append: the method, on the state a crash leaves. */
  method Reopen<B(!new)>(j: Json<B>, ghost blocks: seq<B>, ghost b: B, ghost cut: nat, bytes: Bytes)
      returns (log: Log<B>, read: seq<B>)
    requires Inverse(j) && cut <= |Line(j, b)| && bytes == Written(j, blocks) + Line(j, b)[..cut]
    ensures read == (if cut == |Line(j, b)| then blocks + [b] else blocks)
    ensures fresh(log) && log.json == j && log.file == Written(j, read)
  {
    CrashRecovery(j, blocks, b, cut);
    log := new Log(j, bytes);
    var r := log.Open();
    read := r.value;
  }
}

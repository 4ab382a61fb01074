/**
 * A reference reader for the `boltArtifact` text that the files message
 * carries. It is the partner of the encoder in FolderImport: as long as no
 * path contains `"` and no escaped content contains `</boltAction>`, the
 * reader gives back exactly one block per file, in input order, with its
 * path and escaped content.
 */
module ArtifactDecode {
  import opened Outcomes
  import opened JsStrings
  import opened FolderImport

  /** The condition under which the text of a block cannot be misread. */
  predicate Delimited(b: Block)
  {
    '"' !in b.path && IndexOf(b.body, ActionClose) < 0
  }

  /** The text after prefix `p`, when `s` starts with it. */
  function AfterPrefix(s: string, p: string): (r: Option<string>)
    ensures r.Some? ==> |r.value| == |s| - |p|
  {
    if StartsWith(s, p) then Some(s[|p|..]) else None
  }

  /** The text before the first `tok` in `s` and the text after it. */
  function Until(s: string, tok: string): (r: Option<(string, string)>)
    ensures r.Some? ==> |r.value.0| + |tok| + |r.value.1| == |s|
  {
    var k := IndexOf(s, tok);
    if k < 0 then None else Some((s[..k], s[k + |tok|..]))
  }

  /** Reads one `boltAction` block from the front of `s`, with the text after it. */
  function ParseAction(s: string): (r: Option<(Block, string)>)
    ensures r.Some? ==> |r.value.1| < |s|
  {
    match AfterPrefix(s, ActionOpen)
    case None => None
    case Some(t) =>
      match Until(t, ActionPathEnd)
      case None => None
      case Some((path, v)) =>
        match Until(v, ActionEnd)
        case None => None
        case Some((body, rest)) => Some((Block(path, body), rest))
  }

  /** Reads blocks separated by blank lines up to the artifact's closing tag. */
  function ParseBlockList(s: string): Option<seq<Block>>
    decreases |s|
  {
    match ParseAction(s)
    case None => None
    case Some((b, rest)) =>
      if rest == ArtifactClose then Some([b])
      else if StartsWith(rest, "\n\n") then
        match ParseBlockList(rest[2..])
        case None => None
        case Some(bs) => Some([b] + bs)
      else None
  }

  /** Reads a whole `boltArtifact` envelope. */
  function ParseArtifact(s: string): Option<seq<Block>>
  {
    match AfterPrefix(s, ArtifactOpen)
    case None => None
    case Some(t) => if t == ArtifactClose then Some([]) else ParseBlockList(t)
  }

  lemma Cut(a: string, b: string)
    ensures StartsWith(a + b, a) && (a + b)[..|a|] == a && (a + b)[|a|..] == b
  {
  }

  lemma AfterPrefixOf(p: string, x: string)
    ensures AfterPrefix(p + x, p) == Some(x)
  {
    Cut(p, x);
  }

  /** The first match of `tok` in `a + tok + rest` is the one after `a` when none starts inside `a`. */
  lemma IndexOfAfter(a: string, tok: string, rest: string)
    requires forall j :: 0 <= j < |a| ==> !OccursAt(a + tok + rest, tok, j)
    ensures IndexOf(a + tok + rest, tok) == |a|
  {
    var s := a + tok + rest;
    assert s[|a|..|a| + |tok|] == tok;
    assert OccursAt(s, tok, |a|);
  }

  lemma UntilOf(a: string, tok: string, rest: string)
    requires IndexOf(a + tok + rest, tok) == |a|
    ensures Until(a + tok + rest, tok) == Some((a, rest))
  {
    var s := a + tok + rest;
    assert s[..|a|] == a;
    assert s[|a| + |tok|..] == rest;
  }

  /** After a path without `"`, the first `">\n` is the one that ends the path. */
  lemma FirstPathEnd(p: string, rest: string)
    requires '"' !in p
    ensures IndexOf(p + ActionPathEnd + rest, ActionPathEnd) == |p|
  {
    var s := p + ActionPathEnd + rest;
    forall j | 0 <= j < |p| ensures !OccursAt(s, ActionPathEnd, j) {
      assert s[j] == p[j];
    }
    IndexOfAfter(p, ActionPathEnd, rest);
  }

  /**
   * After content without `</boltAction>`, the first `\n</boltAction>` is
   * the one that ends the block: a match that started inside the content and
   * ran past its end would have to match its newline, which the tag lacks.
   */
  lemma FirstActionEnd(c: string, rest: string)
    requires IndexOf(c, ActionClose) < 0
    ensures IndexOf(c + ActionEnd + rest, ActionEnd) == |c|
  {
    var s := c + ActionEnd + rest;
    var n := |ActionClose|;
    assert forall k :: 0 <= k < n ==> ActionClose[k] != '\n';
    assert ActionEnd[1..] == ActionClose;
    forall j | 0 <= j < |c| ensures !OccursAt(s, ActionEnd, j) {
      var window := s[j..j + 1 + n];
      if j + 1 + n <= |c| {
        assert !OccursAt(c, ActionClose, j + 1);
        assert window[1..] == c[j + 1..j + 1 + n];
        assert window[1..] != ActionEnd[1..];
      } else {
        var m := |c| - j;
        assert window[m] == '\n';
        assert ActionEnd[m] == ActionClose[m - 1];
        assert window[m] != ActionEnd[m];
      }
    }
    IndexOfAfter(c, ActionEnd, rest);
  }

  /** One block reads back as itself, leaving the text that followed it. */
  lemma ParseActionBlock(b: Block, rest: string)
    requires Delimited(b)
    ensures ParseAction(ActionBlock(b) + rest) == Some((b, rest))
  {
    var y := b.body + ActionEnd + rest;
    var x := b.path + ActionPathEnd + y;
    assert ActionBlock(b) + rest == ActionOpen + x;
    AfterPrefixOf(ActionOpen, x);
    FirstPathEnd(b.path, y);
    UntilOf(b.path, ActionPathEnd, y);
    FirstActionEnd(b.body, rest);
    UntilOf(b.body, ActionEnd, rest);
  }

  lemma JoinLength(parts: seq<string>, sep: string)
    requires |parts| > 0
    ensures |Join(parts, sep)| >= |parts[0]|
  {
  }

  /** Blocks joined by blank lines and closed by the artifact tag read back as the same blocks. */
  lemma {:induction false} ParseJoinedBlocks(blocks: seq<Block>)
    requires |blocks| > 0
    requires forall i :: 0 <= i < |blocks| ==> Delimited(blocks[i])
    ensures ParseBlockList(Join(ActionBlocks(blocks), "\n\n") + ArtifactClose) == Some(blocks)
  {
    var texts := ActionBlocks(blocks);
    var first := ActionBlock(blocks[0]);
    if |blocks| == 1 {
      assert Join(texts, "\n\n") + ArtifactClose == first + ArtifactClose;
      ParseActionBlock(blocks[0], ArtifactClose);
      assert ParseBlockList(first + ArtifactClose) == Some([blocks[0]]);
      assert [blocks[0]] == blocks;
    } else {
      var later := Join(ActionBlocks(blocks[1..]), "\n\n");
      assert texts[1..] == ActionBlocks(blocks[1..]);
      var rest := "\n\n" + (later + ArtifactClose);
      assert Join(texts, "\n\n") + ArtifactClose == first + rest;
      ParseActionBlock(blocks[0], rest);
      assert |rest| > |ArtifactClose|;
      Cut("\n\n", later + ArtifactClose);
      ParseJoinedBlocks(blocks[1..]);
      assert [blocks[0]] + blocks[1..] == blocks;
      assert ParseBlockList(first + rest) == Some(blocks);
    }
  }

  /** The artifact text of any delimited blocks reads back as exactly those blocks, in order. */
  lemma ArtifactRoundTrip(blocks: seq<Block>)
    requires forall i :: 0 <= i < |blocks| ==> Delimited(blocks[i])
    ensures ParseArtifact(ArtifactText(blocks)) == Some(blocks)
  {
    var inner := Join(ActionBlocks(blocks), "\n\n") + ArtifactClose;
    assert ArtifactText(blocks) == ArtifactOpen + inner;
    AfterPrefixOf(ArtifactOpen, inner);
    if |blocks| == 0 {
      assert inner == ArtifactClose;
    } else {
      ParseJoinedBlocks(blocks);
      JoinLength(ActionBlocks(blocks), "\n\n");
      assert |ActionBlock(blocks[0])| > 0;
      assert |inner| > |ArtifactClose|;
    }
  }

  /**
   * In the files message of a successful `createChatFromFolder`, everything
   * after the opening sentence, the binary summary and the blank line reads
   * back as one block per input file, in input order, each with the file's
   * path and its escaped content, provided the paths and escaped contents
   * cannot be misread.
   */
  lemma FilesMessageCarriesEveryFile(files: seq<File>, binaryFiles: seq<string>, folderName: string,
                                     collaborators: Collaborators, generated: Generated)
    requires forall i :: 0 <= i < |files| ==> files[i].readResult.Some?
    requires forall i :: 0 <= i < |files| ==>
      Delimited(Block(ArtifactPath(files[i]), collaborators.escapeBoltTags(files[i].readResult.value)))
    ensures var r := ChatFromFolder(files, binaryFiles, folderName, collaborators, generated);
      var prefix := ImportedText(folderName) + BinaryFilesMessage(binaryFiles) + "\n\n";
      && r.Success?
      && StartsWith(r.value[1].content, prefix)
      && ParseArtifact(r.value[1].content[|prefix|..]) ==
           Some(seq(|files|, i requires 0 <= i < |files| =>
                  Block(ArtifactPath(files[i]), collaborators.escapeBoltTags(files[i].readResult.value))))
  {
    var artifacts := ReadAll(files).value;
    var blocks := EscapedBlocks(artifacts, collaborators.escapeBoltTags);
    var expected := seq(|files|, i requires 0 <= i < |files| =>
                      Block(ArtifactPath(files[i]), collaborators.escapeBoltTags(files[i].readResult.value)));
    assert blocks == expected;
    ArtifactRoundTrip(blocks);
    var prefix := ImportedText(folderName) + BinaryFilesMessage(binaryFiles) + "\n\n";
    var content := FilesMessageText(folderName, binaryFiles, artifacts, collaborators.escapeBoltTags);
    assert content == prefix + ArtifactText(blocks);
    Cut(prefix, ArtifactText(blocks));
  }
}

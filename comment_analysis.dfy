/** The comment analyser that the Objective-C scanner installs: it decides
    whether a line of comment text is blank and strips a comment's delimiters. */
module CommentAnalysis {

  /** ASCII approximation of java.lang.Character.isLetterOrDigit. */
  predicate IsLetterOrDigit(c: char) {
    ('a' <= c <= 'z') || ('A' <= c <= 'Z') || ('0' <= c <= '9')
  }

  /** A comment line is blank when none of its characters is a letter or a digit. */
  predicate Blank(line: string) {
    forall i :: 0 <= i < |line| ==> !IsLetterOrDigit(line[i])
  }

  /** isBlank: scans the line from the left and answers false at the first
      letter or digit, true when it runs off the end. The ghost result
      stoppedAt is the index where the scan stopped. */
  method IsBlank(line: string) returns (b: bool, ghost stoppedAt: nat)
    ensures b <==> Blank(line)
    ensures b ==> stoppedAt == |line|
    ensures !b ==> stoppedAt < |line| && IsLetterOrDigit(line[stoppedAt])
    ensures forall j :: 0 <= j < stoppedAt <= |line| ==> !IsLetterOrDigit(line[j])
  {
    var i := 0;
    while i < |line|
      invariant 0 <= i <= |line|
      invariant forall j :: 0 <= j < i ==> !IsLetterOrDigit(line[j])
    {
      if IsLetterOrDigit(line[i]) {
        return false, i;
      }
      i := i + 1;
    }
    return true, |line|;
  }

  /** Blankness of a concatenation is blankness of both parts. */
  lemma BlankConcat(a: string, b: string)
    ensures Blank(a + b) <==> Blank(a) && Blank(b)
  {
    if Blank(a + b) {
      forall i | 0 <= i < |a| ensures !IsLetterOrDigit(a[i]) {
        assert a[i] == (a + b)[i];
      }
      forall i | 0 <= i < |b| ensures !IsLetterOrDigit(b[i]) {
        assert b[i] == (a + b)[|a| + i];
      }
    }
  }

  /** The comment is a line comment when it starts with "//" (String.startsWith). */
  function IsLineComment(comment: string): (b: bool)
    ensures b <==> |comment| >= 2 && comment[0] == '/' && comment[1] == '/'
  {
    "//" <= comment
  }

  /** getContents: a line comment loses its first two characters; any other
      comment loses two characters at each end. String.substring throws for a
      non-line comment shorter than four characters, so callers must not pass one. */
  function GetContents(comment: string): (r: string)
    requires IsLineComment(comment) || |comment| >= 4
    ensures IsLineComment(comment) ==> |r| == |comment| - 2 && comment == comment[..2] + r
    ensures !IsLineComment(comment) ==>
      |r| == |comment| - 4 && comment == comment[..2] + r + comment[|comment| - 2..]
  {
    if IsLineComment(comment) then comment[2..] else comment[2..|comment| - 2]
  }

  /** The line comment whose text is the given content. */
  function LineComment(content: string): (c: string)
    ensures |c| == |content| + 2
  {
    "//" + content
  }

  /** The block comment whose text is the given content. */
  function BlockComment(content: string): (c: string)
    ensures |c| == |content| + 4
  {
    "/*" + content + "*/"
  }

  /** Stripping undoes the delimiters of a line comment. */
  lemma LineCommentContents(content: string)
    ensures IsLineComment(LineComment(content))
    ensures GetContents(LineComment(content)) == content
  {
    assert LineComment(content)[..2] == "//";
  }

  /** Stripping undoes the delimiters of a block comment, which never looks
      like a line comment because its second character is '*'. */
  lemma BlockCommentContents(content: string)
    ensures !IsLineComment(BlockComment(content))
    ensures GetContents(BlockComment(content)) == content
  {
    var c := BlockComment(content);
    assert c[1] == '*';
    assert c[2..|c| - 2] == content;
  }

  /** Every line comment is "//" followed by its contents. */
  lemma LineCommentFromContents(comment: string)
    requires IsLineComment(comment)
    ensures LineComment(GetContents(comment)) == comment
  {
    assert comment[..2] == "//";
  }

  /** Every comment delimited by "/*" and "*/" is rebuilt from its contents. */
  lemma BlockCommentFromContents(comment: string)
    requires |comment| >= 4 && comment[..2] == "/*" && comment[|comment| - 2..] == "*/"
    ensures !IsLineComment(comment)
    ensures BlockComment(GetContents(comment)) == comment
  {
    assert comment[1] == comment[..2][1] == '*';
  }

  /** The contents of a blank comment are blank; and when the stripped
      delimiters hold no letter or digit the converse holds too. */
  lemma ContentsBlank(comment: string)
    requires IsLineComment(comment) || |comment| >= 4
    ensures Blank(comment) ==> Blank(GetContents(comment))
    ensures IsLineComment(comment) && Blank(comment[..2]) ==>
      (Blank(GetContents(comment)) <==> Blank(comment))
    ensures !IsLineComment(comment) && Blank(comment[..2]) && Blank(comment[|comment| - 2..]) ==>
      (Blank(GetContents(comment)) <==> Blank(comment))
  {
    var r := GetContents(comment);
    BlankConcat(comment[..2], r);
    if !IsLineComment(comment) {
      BlankConcat(comment[..2] + r, comment[|comment| - 2..]);
    }
  }

  /** Stripping a well-formed comment's punctuation delimiters does not
      change whether it is blank. */
  lemma DelimitersAreBlank(content: string)
    ensures Blank(LineComment(content)) <==> Blank(content)
    ensures Blank(BlockComment(content)) <==> Blank(content)
  {
    LineCommentContents(content);
    BlockCommentContents(content);
    ContentsBlank(LineComment(content));
    ContentsBlank(BlockComment(content));
    assert LineComment(content)[..2] == "//";
    var c := BlockComment(content);
    assert c[..2] == "/*";
    assert c[|c| - 2..] == "*/";
  }

  /** The sample values of the analyser's behaviour. */
  lemma Samples()
    ensures Blank("   ") && Blank("*") && Blank("") && !Blank("a") && !Blank("* 1 *")
    ensures GetContents("// hello") == " hello"
    ensures GetContents("/* hi */") == " hi "
    ensures GetContents("//") == "" && GetContents("/**/") == ""
  {
    assert "a"[0] == 'a';
    assert "* 1 *"[2] == '1';
    assert IsLineComment("// hello");
    assert !IsLineComment("/* hi */") by { assert "/* hi */"[1] == '*'; }
    assert !IsLineComment("/**/") by { assert "/**/"[1] == '*'; }
  }
}

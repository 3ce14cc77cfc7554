/**
 * The name of the deploy artifact, `<shortRevision>-<stage>.zip`
 * (gulpfile.babel.js, line 37). The same name is the S3 key of the upload
 * and of every create and update request.
 */
module Artifact {

  /** The S3 bucket every artifact is uploaded to (`config.s3_bucket`). */
  const Bucket := "aws-example-builds"

  predicate IsLineBreak(c: char)
  {
    c == '\r' || c == '\n'
  }

  predicate NoLineBreak(s: string)
  {
    forall i :: 0 <= i < |s| ==> !IsLineBreak(s[i])
  }

  /**
   * `s.replace(/\r?\n|\r/, '')`: the regular expression has no `g` flag, so
   * only its leftmost match goes, and at a "\r" directly followed by "\n"
   * the first alternative matches both characters.
   */
  function StripFirstLineBreak(s: string): string
  {
    if s == [] then s
    else if s[0] == '\r' && |s| > 1 && s[1] == '\n' then s[2..]
    else if IsLineBreak(s[0]) then s[1..]
    else [s[0]] + StripFirstLineBreak(s[1..])
  }

  /** A revision without line breaks is unchanged; otherwise one or two characters go. */
  lemma {:induction false} StripLength(s: string)
    ensures NoLineBreak(s) ==> StripFirstLineBreak(s) == s
    ensures !NoLineBreak(s) ==> |s| - 2 <= |StripFirstLineBreak(s)| < |s|
  {
    if s != [] && !IsLineBreak(s[0]) {
      StripLength(s[1..]);
      assert NoLineBreak(s) <==> NoLineBreak(s[1..]) by {
        forall i | 0 <= i < |s| - 1 ensures s[1..][i] == s[i + 1] { }
        if !NoLineBreak(s) {
          var i :| 0 <= i < |s| && IsLineBreak(s[i]);
          assert s[1..][i - 1] == s[i];
        }
      }
      if NoLineBreak(s) {
        assert [s[0]] + s[1..] == s;
      }
    }
  }

  /** `zipfileName`: the revision printed by git, its line break removed, then the stage. */
  function ZipfileName(revision: string, stage: string): string
  {
    StripFirstLineBreak(revision) + "-" + stage + ".zip"
  }

  /** At a line break the break goes and the rest stays. */
  lemma StripAtLineBreak(b: string, q: string)
    requires b == "\r\n" || b == "\n" || (b == "\r" && (q == [] || q[0] != '\n'))
    ensures StripFirstLineBreak(b + q) == q
  {
    var s := b + q;
    if b == "\r\n" {
      assert s[0] == '\r' && s[1] == '\n';
      assert s[2..] == q;
    } else if b == "\n" {
      assert s[0] == '\n';
      assert s[1..] == q;
    } else {
      assert s[0] == '\r';
      assert |s| > 1 ==> s[1] == q[0];
      assert s[1..] == q;
    }
  }

  /**
   * Whatever precedes the first line break is kept, the break itself
   * ("\r\n", "\n" or a lone "\r") is dropped, and everything after it,
   * later line breaks included, is kept.
   */
  lemma {:induction false} StripRemovesFirstLineBreakOnly(p: string, b: string, q: string)
    requires NoLineBreak(p)
    requires b == "\r\n" || b == "\n" || (b == "\r" && (q == [] || q[0] != '\n'))
    ensures StripFirstLineBreak(p + b + q) == p + q
  {
    if p == [] {
      assert p + b + q == b + q;
      StripAtLineBreak(b, q);
    } else {
      assert !IsLineBreak(p[0]);
      var t := p[1..] + b + q;
      assert p + b + q == [p[0]] + t;
      assert NoLineBreak(p[1..]) by {
        forall i | 0 <= i < |p| - 1 ensures p[1..][i] == p[i + 1] { }
      }
      StripRemovesFirstLineBreakOnly(p[1..], b, q);
      StripKeepsLeadingChar(p[0], t);
      assert p + q == [p[0]] + (p[1..] + q);
    }
  }

  /** A character that is not a line break stays in front. */
  lemma StripKeepsLeadingChar(c: char, t: string)
    requires !IsLineBreak(c)
    ensures StripFirstLineBreak([c] + t) == [c] + StripFirstLineBreak(t)
  {
    assert ([c] + t)[1..] == t;
  }

  /** `git rev-parse --short HEAD` prints the revision and one "\n": the key is `<rev>-<stage>.zip`. */
  lemma ZipfileNameOfGitOutput(rev: string, stage: string)
    requires NoLineBreak(rev)
    ensures ZipfileName(rev + "\n", stage) == rev + "-" + stage + ".zip"
    ensures ZipfileName(rev + "\r\n", stage) == rev + "-" + stage + ".zip"
  {
    StripRemovesFirstLineBreakOnly(rev, "\n", "");
    StripRemovesFirstLineBreakOnly(rev, "\r\n", "");
    assert rev + "\n" + "" == rev + "\n";
    assert rev + "\r\n" + "" == rev + "\r\n";
    assert rev + "" == rev;
  }

}

/** `getOutputFileName`: the name the compressed file is written under. */
module Naming {
  import opened Text

  const Suffix: string := "_compressed.mp4"

  /** No character of `s` from index `from` on is a dot. */
  predicate NoDotFrom(s: string, from: nat) {
    forall j :: from <= j < |s| ==> s[j] != '.'
  }

  /**
   * The input name with its last extension replaced by `_compressed.mp4`. A
   * name without a dot, or whose only dot is its first character (a hidden
   * file such as `.mov`), is kept whole.
   */
  function GetOutputFileName(originalName: string): (r: string)
    ensures |r| >= |Suffix| && r[|r| - |Suffix|..] == Suffix
    ensures var base := r[..|r| - |Suffix|];
      && base <= originalName
      && (|base| == |originalName| <==> NoDotFrom(originalName, 1))
      && (|base| < |originalName| ==>
            0 < |base| && originalName[|base|] == '.' && NoDotFrom(originalName, |base| + 1))
  {
    var lastDot := LastIndexOf(originalName, '.');
    if lastDot > 0 then
      originalName[..lastDot] + Suffix
    else
      assert NoDotFrom(originalName, 1) by {
        if lastDot == -1 {
          forall j | 1 <= j < |originalName|
            ensures originalName[j] != '.'
          {
            assert originalName[j] in originalName;
          }
        }
      }
      originalName + Suffix
  }

  /** The output name is never more than the 15 suffix characters longer than the input. */
  lemma OutputNameLength(originalName: string)
    ensures |GetOutputFileName(originalName)| <= |originalName| + |Suffix|
    ensures NoDotFrom(originalName, 1) ==> GetOutputFileName(originalName) == originalName + Suffix
  {
  }
}

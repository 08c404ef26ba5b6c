/** Expansion of a dot-delimited category into its hierarchical topics (src/lib/topics.ts). */
module Topics {

  /** `s.split('.')`: the dot-free segments of `s`, built from the right. */
  function Split(s: string): (segs: seq<string>)
    ensures |segs| >= 1
    ensures forall i :: 0 <= i < |segs| ==> '.' !in segs[i]
    decreases |s|
  {
    if s == [] then [""]
    else
      var init := Split(s[..|s| - 1]);
      var c := s[|s| - 1];
      if c == '.' then init + [""]
      else init[..|init| - 1] + [init[|init| - 1] + [c]]
  }

  /** There is one more segment than there are dots. */
  lemma {:induction false} SplitCount(s: string)
    ensures |Split(s)| == multiset(s)['.'] + 1
    decreases |s|
  {
    if s != [] {
      SplitCount(s[..|s| - 1]);
      assert s == s[..|s| - 1] + [s[|s| - 1]];
    }
  }

  /** `segs.join('.')`. */
  function Join(segs: seq<string>): string {
    if |segs| == 0 then ""
    else if |segs| == 1 then segs[0]
    else Join(segs[..|segs| - 1]) + "." + segs[|segs| - 1]
  }

  lemma JoinSnoc(segs: seq<string>, last: string)
    requires |segs| >= 1
    ensures Join(segs + [last]) == Join(segs) + "." + last
  {
    assert (segs + [last])[..|segs|] == segs;
  }

  /** Extending the last segment by one character extends the joined string by that character. */
  lemma {:induction false} JoinExtendLast(segs: seq<string>, c: char)
    requires |segs| >= 1
    ensures Join(segs[..|segs| - 1] + [segs[|segs| - 1] + [c]]) == Join(segs) + [c]
  {
    var front := segs[..|segs| - 1];
    if |segs| > 1 {
      JoinSnoc(front, segs[|segs| - 1] + [c]);
    }
  }

  /** Joining the segments of `s` gives back `s`. */
  lemma {:induction false} JoinSplit(s: string)
    ensures Join(Split(s)) == s
    decreases |s|
  {
    if s != [] {
      var front := s[..|s| - 1];
      var c := s[|s| - 1];
      var init := Split(front);
      JoinSplit(front);
      assert s == front + [c];
      if c == '.' {
        JoinSnoc(init, "");
      } else {
        JoinExtendLast(init, c);
      }
    }
  }

  /** A dot-free string splits into itself. */
  lemma {:induction false} SplitDotless(s: string)
    requires '.' !in s
    ensures Split(s) == [s]
    decreases |s|
  {
    if s != [] {
      SplitDotless(s[..|s| - 1]);
      assert s == s[..|s| - 1] + [s[|s| - 1]];
    }
  }

  /** Appending "." and a dot-free segment appends that segment to the split. */
  lemma {:induction false} SplitSnoc(x: string, y: string)
    requires '.' !in y
    ensures Split(x + "." + y) == Split(x) + [y]
    decreases |y|
  {
    if y == [] {
      assert (x + "." + y)[..|x + "." + y| - 1] == x;
    } else {
      var y' := y[..|y| - 1];
      var c := y[|y| - 1];
      assert (x + "." + y)[..|x + "." + y| - 1] == x + "." + y';
      SplitSnoc(x, y');
      assert y' + [c] == y;
    }
  }

  /** Splitting the join of dot-free segments gives back the segments. */
  lemma {:induction false} SplitJoin(segs: seq<string>)
    requires |segs| >= 1
    requires forall i :: 0 <= i < |segs| ==> '.' !in segs[i]
    ensures Split(Join(segs)) == segs
    decreases |segs|
  {
    if |segs| == 1 {
      SplitDotless(segs[0]);
    } else {
      var front := segs[..|segs| - 1];
      SplitJoin(front);
      SplitSnoc(Join(front), segs[|segs| - 1]);
      assert front + [segs[|segs| - 1]] == segs;
    }
  }

  /** The join of a non-empty leading run of segments is a prefix of the join of all of them. */
  lemma {:induction false} JoinPrefix(segs: seq<string>, k: nat)
    requires 1 <= k <= |segs|
    ensures Join(segs[..k]) <= Join(segs)
    decreases |segs|
  {
    if k < |segs| {
      var front := segs[..|segs| - 1];
      assert segs[..k] == front[..k];
      JoinPrefix(front, k);
    } else {
      assert segs[..k] == segs;
    }
  }

  /** The topics of `category`: the joins of the first n, n-1, ..., 1 segments. */
  function TopicList(category: string): seq<string> {
    if category == "" then []
    else
      var segs := Split(category);
      seq(|segs|, i requires 0 <= i < |segs| => Join(segs[..|segs| - i]))
  }

  /** Length and elements of the topic list of a non-empty category. */
  lemma TopicAt(category: string, i: nat)
    requires category != "" && i < |Split(category)|
    ensures |TopicList(category)| == |Split(category)|
    ensures TopicList(category)[i] == Join(Split(category)[..|Split(category)| - i])
  {
  }

  /** `topics(category)`: push the joined segments, drop the last segment, repeat. */
  method Topics(category: string) returns (result: seq<string>)
    ensures result == TopicList(category)
  {
    if category == "" {
      return [];
    }
    result := [];
    var segments := Split(category);
    ghost var all := segments;
    while |segments| > 0
      invariant |segments| + |result| == |all|
      invariant segments == all[..|segments|]
      invariant forall i :: 0 <= i < |result| ==> result[i] == Join(all[..|all| - i])
    {
      result := result + [Join(segments)];
      segments := segments[..|segments| - 1];
    }
  }

  /** The empty category has no topics; any other has one per segment, the category first and its first segment last. */
  lemma TopicListShape(category: string)
    ensures category == "" ==> TopicList(category) == []
    ensures category != "" ==>
      && |TopicList(category)| == |Split(category)| == multiset(category)['.'] + 1
      && TopicList(category)[0] == category
      && TopicList(category)[|TopicList(category)| - 1] == Split(category)[0]
  {
    if category != "" {
      var segs := Split(category);
      JoinSplit(category);
      SplitCount(category);
      TopicAt(category, 0);
      TopicAt(category, |segs| - 1);
      assert segs[..|segs|] == segs;
    }
  }

  /** Each topic is the previous one with its last dot-segment removed. */
  lemma TopicStep(category: string, i: nat)
    requires i + 1 < |TopicList(category)|
    ensures TopicList(category)[i] == TopicList(category)[i + 1] + "." + Split(category)[|Split(category)| - 1 - i]
  {
    assert category != "";
    var segs := Split(category);
    TopicAt(category, i);
    TopicAt(category, i + 1);
    JoinGrow(segs, |segs| - 1 - i);
  }

  /** Joining one more segment of a list appends a dot and that segment. */
  lemma JoinGrow(segs: seq<string>, j: nat)
    requires 1 <= j < |segs|
    ensures Join(segs[..j + 1]) == Join(segs[..j]) + "." + segs[j]
  {
    assert segs[..j] + [segs[j]] == segs[..j + 1];
    JoinSnoc(segs[..j], segs[j]);
  }

  /** Every topic is a prefix of the category, ending at a dot boundary unless it is the category itself. */
  lemma TopicIsPrefix(category: string, i: nat)
    requires i < |TopicList(category)|
    ensures TopicList(category)[i] <= category
    ensures i > 0 ==> |TopicList(category)[i]| < |category| && category[|TopicList(category)[i]|] == '.'
  {
    var segs := Split(category);
    var n := |segs|;
    TopicAt(category, i);
    JoinSplit(category);
    JoinPrefix(segs, n - i);
    if i > 0 {
      TopicStep(category, i - 1);
      TopicIsPrefix(category, i - 1);
    }
  }

  /** A category without dots is its own single topic. */
  lemma TopicsOfDotless(category: string)
    requires category != "" && '.' !in category
    ensures TopicList(category) == [category]
  {
    SplitDotless(category);
    TopicAt(category, 0);
  }
}

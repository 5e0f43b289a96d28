/** The topic search of `get_sns_topic_arn`: the pages of topic ARNs that
    `list_topics` returns are an input, scanned page by page, topic by topic. */
module TopicLookup {
  import opened AlarmTypes

  predicate IsPrefix(p: string, s: string) {
    |p| <= |s| && s[..|p|] == p
  }

  /** Python's `sub in s` on strings. */
  predicate Contains(s: string, sub: string)
    decreases |s|
  {
    IsPrefix(sub, s) || (|s| > 0 && Contains(s[1..], sub))
  }

  /** `sub` occurs in `s` starting at position `i`. */
  ghost predicate OccursAt(s: string, sub: string, i: int) {
    0 <= i && i + |sub| <= |s| && s[i..i + |sub|] == sub
  }

  /** `sub in s` holds exactly when `sub` occurs in `s` at some position. */
  lemma {:induction false} ContainsOccurs(s: string, sub: string)
    ensures Contains(s, sub) <==> exists i :: OccursAt(s, sub, i)
    decreases |s|
  {
    if |s| > 0 {
      ContainsOccurs(s[1..], sub);
      if IsPrefix(sub, s) {
        assert OccursAt(s, sub, 0);
      }
      if Contains(s[1..], sub) {
        var i :| OccursAt(s[1..], sub, i);
        assert s[i + 1..i + 1 + |sub|] == s[1..][i..i + |sub|];
        assert OccursAt(s, sub, i + 1);
      }
      if exists i :: OccursAt(s, sub, i) {
        var i :| OccursAt(s, sub, i);
        if i > 0 {
          assert s[1..][i - 1..i - 1 + |sub|] == s[i..i + |sub|];
          assert OccursAt(s[1..], sub, i - 1);
        } else {
          assert IsPrefix(sub, s);
        }
      }
    } else {
      if |sub| == 0 {
        assert OccursAt(s, sub, 0);
      }
      if exists i :: OccursAt(s, sub, i) {
        var i :| OccursAt(s, sub, i);
        assert i == 0 && |sub| == 0;
      }
    }
  }

  /** A topic name matches every ARN it is part of, not only its own
      topic: `Infra` matches the ARN of a topic `Infrastructure_Topic`. */
  lemma PartialNameMatches(arnStem: string, name: string, rest: string)
    ensures Contains(arnStem + name + rest, name)
  {
    var arn := arnStem + name + rest;
    assert arn[|arnStem|..|arnStem| + |name|] == name;
    assert OccursAt(arn, name, |arnStem|);
    ContainsOccurs(arn, name);
  }

  /** The first ARN, in order, that contains `name`. */
  function FirstMatch(name: string, arns: seq<string>): (r: Option<string>)
  {
    if arns == [] then None
    else if Contains(arns[0], name) then Some(arns[0])
    else FirstMatch(name, arns[1..])
  }

  /** `FirstMatch` finds the earliest ARN containing the name, and finds
      nothing exactly when no ARN contains it. */
  lemma {:induction false} FirstMatchIsFirst(name: string, arns: seq<string>)
    ensures FirstMatch(name, arns).Some? ==>
      exists k | 0 <= k < |arns| ::
        && arns[k] == FirstMatch(name, arns).value
        && Contains(arns[k], name)
        && forall j | 0 <= j < k :: !Contains(arns[j], name)
    ensures FirstMatch(name, arns).None? <==> forall k | 0 <= k < |arns| :: !Contains(arns[k], name)
  {
    if arns != [] && !Contains(arns[0], name) {
      FirstMatchIsFirst(name, arns[1..]);
      if FirstMatch(name, arns[1..]).Some? {
        var k :| 0 <= k < |arns[1..]| && arns[1..][k] == FirstMatch(name, arns[1..]).value
                 && Contains(arns[1..][k], name) && forall j | 0 <= j < k :: !Contains(arns[1..][j], name);
        assert arns[k + 1] == arns[1..][k];
        forall j | 0 <= j < k + 1 ensures !Contains(arns[j], name) {
          if j > 0 { assert arns[j] == arns[1..][j - 1]; }
        }
      } else {
        forall k | 0 <= k < |arns| ensures !Contains(arns[k], name) {
          if k > 0 { assert arns[k] == arns[1..][k - 1]; }
        }
      }
    }
  }

  lemma {:induction false} FirstMatchAppend(name: string, xs: seq<string>, ys: seq<string>)
    ensures FirstMatch(name, xs + ys) == if FirstMatch(name, xs).Some? then FirstMatch(name, xs) else FirstMatch(name, ys)
  {
    if xs == [] {
      assert xs + ys == ys;
    } else {
      assert (xs + ys)[1..] == xs[1..] + ys;
      FirstMatchAppend(name, xs[1..], ys);
    }
  }

  /** What `get_sns_topic_arn` returns, or the `ValueError` it raises. */
  function TopicArn(name: string, region: string, pages: seq<seq<string>>): Result<string, Error> {
    match FirstMatch(name, Flatten(pages))
    case Some(arn) => Success(arn)
    case None => Failure(TopicNotFound(name, region))
  }

  /** The topics of all pages split around topic `t` of page `p`. */
  lemma FlattenAround(pages: seq<seq<string>>, p: int, t: int)
    requires 0 <= p < |pages| && 0 <= t < |pages[p]|
    ensures Flatten(pages) ==
      (Flatten(pages[..p]) + pages[p][..t + 1]) + (pages[p][t + 1..] + Flatten(pages[p + 1..]))
  {
    var page := pages[p];
    calc {
      Flatten(pages);
      { assert pages == pages[..p + 1] + pages[p + 1..]; FlattenAppend(pages[..p + 1], pages[p + 1..]); }
      Flatten(pages[..p + 1]) + Flatten(pages[p + 1..]);
      { FlattenSnoc(pages, p); }
      Flatten(pages[..p]) + page + Flatten(pages[p + 1..]);
      { assert page == page[..t + 1] + page[t + 1..]; }
      (Flatten(pages[..p]) + page[..t + 1]) + (page[t + 1..] + Flatten(pages[p + 1..]));
    }
  }

  /** Looking at topic `t` of page `p` after no earlier topic matched: a
      match is the overall answer, otherwise still nothing has matched. */
  lemma ScanStep(name: string, pages: seq<seq<string>>, p: int, t: int)
    requires 0 <= p < |pages| && 0 <= t < |pages[p]|
    requires FirstMatch(name, Flatten(pages[..p]) + pages[p][..t]).None?
    ensures Contains(pages[p][t], name) ==> FirstMatch(name, Flatten(pages)) == Some(pages[p][t])
    ensures !Contains(pages[p][t], name) ==> FirstMatch(name, Flatten(pages[..p]) + pages[p][..t + 1]).None?
  {
    var page := pages[p];
    var seen := Flatten(pages[..p]) + page[..t + 1];
    assert page[..t + 1] == page[..t] + [page[t]];
    assert seen == (Flatten(pages[..p]) + page[..t]) + [page[t]];
    FirstMatchAppend(name, Flatten(pages[..p]) + page[..t], [page[t]]);
    assert [page[t]][1..] == [];
    if Contains(page[t], name) {
      FlattenAround(pages, p, t);
      FirstMatchAppend(name, seen, page[t + 1..] + Flatten(pages[p + 1..]));
    }
  }

  /** `get_sns_topic_arn`: the nested scan with its early return. */
  method FindTopicArn(name: string, region: string, pages: seq<seq<string>>) returns (r: Result<string, Error>)
    ensures r == TopicArn(name, region, pages)
  {
    var p := 0;
    while p < |pages|
      invariant 0 <= p <= |pages|
      invariant FirstMatch(name, Flatten(pages[..p])).None?
    {
      var page := pages[p];
      var t := 0;
      assert Flatten(pages[..p]) + page[..t] == Flatten(pages[..p]);
      while t < |page|
        invariant 0 <= t <= |page|
        invariant FirstMatch(name, Flatten(pages[..p]) + page[..t]).None?
      {
        ScanStep(name, pages, p, t);
        var arn := page[t];
        if Contains(arn, name) {
          return Success(arn);
        }
        t := t + 1;
      }
      assert page[..t] == page;
      FlattenSnoc(pages, p);
      p := p + 1;
    }
    assert pages[..p] == pages;
    return Failure(TopicNotFound(name, region));
  }
}

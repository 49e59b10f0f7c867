/**
 * The string helpers of pkg/utils: rune-wise truncation (string.go) and the
 * removal of a Markdown code fence around a JSON reply (json.go).
 *
 * A string is its sequence of runes, so `[]rune(s)` and `string(runes)` are
 * the identity here.
 */
module Utils {
  import opened Text

  /** `Truncate`: the first `n` runes, or `s` itself when it is no longer than that. */
  function Truncate(s: string, n: int): (r: string)
    requires n >= 0
    ensures |s| <= n ==> r == s
    ensures |s| > n ==> |r| == n
    ensures r <= s
  {
    if |s| <= n then s else s[..n]
  }

  /** `TruncateWithSuffix`: the suffix marks that something was cut, and only then. */
  function TruncateWithSuffix(s: string, n: int, suffix: string): (r: string)
    requires n >= 0
    ensures r == Truncate(s, n) + (if |s| <= n then "" else suffix)
  {
    if |s| <= n then s else s[..n] + suffix
  }

  /** `TruncateWithPrefix`: past the length `n`, the first `n` runes give way to the prefix. */
  function TruncateWithPrefix(s: string, n: int, prefix: string): (r: string)
    requires n >= 0
    ensures |s| <= n ==> r == s
    ensures |s| > n ==> |r| == |prefix| + |s| - n && r[..|prefix|] == prefix
  {
    if |s| <= n then s else prefix + s[n..]
  }

  /**
   * Truncation is idempotent, and what `Truncate` keeps and what
   * `TruncateWithPrefix` keeps after its prefix make up the whole string.
   */
  lemma TruncationsSplit(s: string, n: nat, prefix: string)
    ensures Truncate(Truncate(s, n), n) == Truncate(s, n)
    ensures |s| > n ==> Truncate(s, n) + TruncateWithPrefix(s, n, prefix)[|prefix|..] == s
  {
    if |s| > n {
      assert TruncateWithPrefix(s, n, prefix)[|prefix|..] == s[n..];
      assert s[..n] + s[n..] == s;
    }
  }

  /** Every rune of `w` is a space. */
  predicate AllSpace(w: string) {
    forall i :: 0 <= i < |w| ==> IsSpace(w[i])
  }

  /** No space at either end. */
  predicate Trimmed(s: string) {
    s == [] || (!IsSpace(s[0]) && !IsSpace(s[|s| - 1]))
  }

  lemma {:induction false} TrimLeftOf(w: string, y: string)
    requires AllSpace(w) && (y == [] || !IsSpace(y[0]))
    ensures TrimLeftSpace(w + y) == y
  {
    if w != [] {
      assert (w + y)[1..] == w[1..] + y;
      TrimLeftOf(w[1..], y);
    }
  }

  lemma {:induction false} TrimRightOf(y: string, w: string)
    requires AllSpace(w) && (y == [] || !IsSpace(y[|y| - 1]))
    ensures TrimRightSpace(y + w) == y
  {
    if w != [] {
      assert (y + w)[..|y + w| - 1] == y + w[..|w| - 1];
      TrimRightOf(y, w[..|w| - 1]);
    }
  }

  /** `strings.TrimSpace` removes exactly the spaces around a trimmed string. */
  lemma TrimSpaceAround(w1: string, x: string, w2: string)
    requires AllSpace(w1) && AllSpace(w2) && Trimmed(x)
    ensures TrimSpace(w1 + x + w2) == x
  {
    if x == [] {
      assert w1 + x + w2 == (w1 + w2) + [];
      TrimLeftOf(w1 + w2, []);
    } else {
      assert w1 + x + w2 == w1 + (x + w2);
      TrimLeftOf(w1, x + w2);
      TrimRightOf(x, w2);
    }
  }

  const Fence := "```"

  /**
   * `CleanMarkdownJSON`: trim; drop one opening fence, with a `json` tag
   * right after it, and trim; drop one closing fence and trim.
   */
  function CleanMarkdownJSON(s: string): (r: string)
    ensures Trimmed(r)
  {
    var s1 := TrimSpace(s);
    var s2 := if HasPrefix(s1, Fence) then TrimSpace(TrimPrefix(TrimPrefix(s1, Fence), "json")) else s1;
    if HasSuffix(s2, Fence) then TrimSpace(TrimSuffix(s2, Fence)) else s2
  }

  /** Text with no fence at either end comes back trimmed and otherwise untouched. */
  lemma UnfencedIsTrimmed(s: string)
    requires !HasPrefix(TrimSpace(s), Fence) && !HasSuffix(TrimSpace(s), Fence)
    ensures CleanMarkdownJSON(s) == TrimSpace(s)
  {
  }

  /** The reply a model writes: `body` in a fenced block tagged `json`. */
  function FencedJson(body: string): string {
    Fence + "json" + "\n" + body + "\n" + Fence
  }

  /** The reply in a fenced block without a tag. */
  function Fenced(body: string): string {
    Fence + "\n" + body + "\n" + Fence
  }

  /** Cleaning undoes the fencing of a trimmed body, tagged or not. */
  lemma CleanUndoesFence(body: string)
    requires Trimmed(body)
    ensures CleanMarkdownJSON(FencedJson(body)) == body
    ensures CleanMarkdownJSON(Fenced(body)) == body
  {
    FenceStripped(body, Fence + "json");
    FenceStripped(body, Fence);
  }

  /** The common steps of `CleanUndoesFence`, for the opening line `open` without its line break. */
  lemma FenceStripped(body: string, open: string)
    requires Trimmed(body) && (open == Fence + "json" || open == Fence)
    ensures CleanMarkdownJSON(open + "\n" + body + "\n" + Fence) == body
  {
    var s := open + "\n" + body + "\n" + Fence;
    var s2 := TrimSpace("\n" + body + "\n" + Fence);
    assert TrimSpace(s) == s && HasPrefix(s, Fence)
           && TrimPrefix(TrimPrefix(s, Fence), "json") == "\n" + body + "\n" + Fence by {
      DropOpen(open, body);
    }
    assert HasSuffix(s2, Fence) && TrimSpace(TrimSuffix(s2, Fence)) == body by {
      DropClose(body);
    }
  }

  /** An opening fence is found and dropped with its tag; the text it opens is already trimmed. */
  lemma DropOpen(open: string, body: string)
    requires open == Fence + "json" || open == Fence
    ensures var s := open + "\n" + body + "\n" + Fence;
            TrimSpace(s) == s && HasPrefix(s, Fence)
            && TrimPrefix(TrimPrefix(s, Fence), "json") == "\n" + body + "\n" + Fence
  {
    var afterTag := "\n" + body + "\n" + Fence;
    var s := open + afterTag;
    assert s == open + "\n" + body + "\n" + Fence;
    assert HasSuffix(s, Fence) by {
      assert s == (open + "\n" + body + "\n") + Fence;
    }
    assert HasPrefix(s, Fence) by {
      assert s[..3] == open[..3];
    }
    OpenTrimmed(s);
    OpenDropped(open, afterTag);
  }

  /** A text that starts and ends with a fence has nothing to trim. */
  lemma OpenTrimmed(s: string)
    requires HasPrefix(s, Fence) && HasSuffix(s, Fence)
    ensures TrimSpace(s) == s
  {
    assert s[0] == '`' && s[|s| - 1] == '`';
    assert "" + s + "" == s;
    TrimSpaceAround("", s, "");
  }

  /** The fence and then the tag go, and a line break right after the fence is not a tag. */
  lemma OpenDropped(open: string, afterTag: string)
    requires open == Fence + "json" || open == Fence
    requires afterTag != [] && afterTag[0] == '\n'
    ensures HasPrefix(open + afterTag, Fence) && TrimPrefix(TrimPrefix(open + afterTag, Fence), "json") == afterTag
  {
    var tag := open[3..];
    assert open == Fence + tag;
    assert open + afterTag == Fence + (tag + afterTag);
    assert (open + afterTag)[..3] == Fence;
    if tag == "" {
      assert tag + afterTag == afterTag;
    }
  }

  /** Trimming then leaves the body and the closing fence, which goes too. */
  lemma DropClose(body: string)
    requires Trimmed(body)
    ensures var s2 := TrimSpace("\n" + body + "\n" + Fence);
            HasSuffix(s2, Fence) && TrimSpace(TrimSuffix(s2, Fence)) == body
  {
    if body == [] {
      assert TrimSpace("\n" + body + "\n" + Fence) == Fence by {
        assert "\n" + body + "\n" + Fence == "\n\n" + Fence + "";
        TrimSpaceAround("\n\n", Fence, "");
      }
      assert TrimSuffix(Fence, Fence) == [];
      assert TrimSpace([]) == [] by {
        TrimSpaceAround("", [], "");
      }
    } else {
      var rest := body + "\n" + Fence;
      assert TrimSpace("\n" + body + "\n" + Fence) == rest by {
        assert rest[0] == body[0] && rest[|rest| - 1] == '`';
        assert "\n" + body + "\n" + Fence == "\n" + rest + "";
        TrimSpaceAround("\n", rest, "");
      }
      assert HasSuffix(rest, Fence) && TrimSuffix(rest, Fence) == body + "\n" by {
        assert rest == (body + "\n") + Fence;
      }
      assert TrimSpace(body + "\n") == body by {
        assert body + "\n" == "" + body + "\n";
        TrimSpaceAround("", body, "\n");
      }
    }
  }

  /**
   * At most one fence goes at each end: a block fenced twice comes back
   * fenced once.
   */
  lemma OneFenceEachEnd(body: string)
    requires Trimmed(body)
    ensures CleanMarkdownJSON(Fenced(Fenced(body))) == Fenced(body)
  {
    var inner := Fenced(body);
    assert Trimmed(inner);
    FenceStripped(inner, Fence);
  }
}

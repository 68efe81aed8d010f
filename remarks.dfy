/** The remarks after RMK. main5.py and main3.py scan them with a while-loop
    that reads MT OBSC and OBST OBSC as one remark and writes indented
    lines under a "Ремарки:" header; main2.py and main.py run a for-loop
    that writes one "Ремарка: " line per token and skips OBSC. */
module Remarks {
  import opened Text

  // ---------------------------------------------------------------------
  // main5.py and main3.py
  // ---------------------------------------------------------------------

  const REMARKS_HEADER: string := "Ремарки:"
  const ITEM: string := "  - "
  const MT_OBSC_LINE: string := ITEM + "Горы закрыты облачностью/осадками"
  const OBST_OBSC_LINE: string := ITEM + "Препятствия закрыты облачностью/осадками"
  const QFE_TEXT: string := ITEM + "Давление QFE "
  const MM_HG: string := " мм рт.ст."
  const MM_HG_EXTRA: string := " мм рт.ст. (доп. "
  const QBB_TEXT: string := ITEM + "Нижняя граница облаков "
  const UNKNOWN_REMARK: string := ITEM + "(неизвестная ремарка) "
  const METRES: string := " м"

  /** One decoded remark, as main5.py records it. */
  datatype RemarkRec =
    | MountainsObscured
    | ObstaclesObscured
    | QfeRemark(code: string, value: string)
    | QbbRemark(code: string, valueM: string)
    | UnknownRemark(code: string)

  /** A remark token read on its own. */
  function SingleRemark5(rt: string): RemarkRec
  {
    if StartsWith(rt, "QFE") then QfeRemark(rt, rt[3..])
    else if StartsWith(rt, "QBB") then QbbRemark(rt, rt[3..])
    else UnknownRemark(rt)
  }

  /** The scan of the while-loop: the two-token phrases MT OBSC and OBST
      OBSC are taken together, every other token on its own. */
  function Remarks5(rts: seq<string>): (recs: seq<RemarkRec>)
    ensures |recs| <= |rts| && 2 * |recs| >= |rts|
    decreases |rts|
  {
    if rts == [] then []
    else if |rts| >= 2 && rts[0] + " " + rts[1] == "MT OBSC" then [MountainsObscured] + Remarks5(rts[2..])
    else if |rts| >= 2 && rts[0] + " " + rts[1] == "OBST OBSC" then [ObstaclesObscured] + Remarks5(rts[2..])
    else [SingleRemark5(rts[0])] + Remarks5(rts[1..])
  }

  /** The line of a remark. QFE writes every '/' as the start of the
      additional value (and never closes the parenthesis). */
  function RemarkText5(r: RemarkRec): (line: string)
    ensures StartsWith(line, ITEM)
  {
    match r
    case MountainsObscured => MT_OBSC_LINE
    case ObstaclesObscured => OBST_OBSC_LINE
    case QfeRemark(_, value) => QFE_TEXT + ReplaceChar(value, '/', MM_HG_EXTRA) + MM_HG
    case QbbRemark(_, value) => QBB_TEXT + value + METRES
    case UnknownRemark(code) => UNKNOWN_REMARK + code
  }

  function RemarkTexts5(recs: seq<RemarkRec>): (lines: seq<string>)
    ensures |lines| == |recs|
    ensures forall k :: 0 <= k < |recs| ==> lines[k] == RemarkText5(recs[k])
  {
    if recs == [] then [] else [RemarkText5(recs[0])] + RemarkTexts5(recs[1..])
  }

  /** What main5.py and main3.py write for the remarks: the header when
      there is any, then one line per remark. */
  function RemarkLines5(rts: seq<string>): seq<string>
  {
    (if rts != [] then [REMARKS_HEADER] else []) + RemarkTexts5(Remarks5(rts))
  }

  /** The while-loop: j moves by two over a phrase and by one over any other
      token. */
  method ScanRemarks5(rts: seq<string>) returns (lines: seq<string>, recs: seq<RemarkRec>)
    ensures recs == Remarks5(rts)
    ensures lines == RemarkTexts5(recs)
  {
    lines, recs := [], [];
    var j := 0;
    while j < |rts|
      invariant 0 <= j <= |rts|
      invariant recs + Remarks5(rts[j..]) == Remarks5(rts)
      invariant lines == RemarkTexts5(recs)
      decreases |rts| - j
    {
      var rt := rts[j];
      if j + 1 < |rts| {
        var phrase := rt + " " + rts[j + 1];
        if phrase == "MT OBSC" {
          RemarkPair(rts, j, recs, MountainsObscured);
          TextsAppend(recs, MountainsObscured);
          lines := lines + [MT_OBSC_LINE];
          recs := recs + [MountainsObscured];
          j := j + 2;
          continue;
        }
        if phrase == "OBST OBSC" {
          RemarkPair(rts, j, recs, ObstaclesObscured);
          TextsAppend(recs, ObstaclesObscured);
          lines := lines + [OBST_OBSC_LINE];
          recs := recs + [ObstaclesObscured];
          j := j + 2;
          continue;
        }
      }
      var r: RemarkRec;
      if StartsWith(rt, "QFE") {
        var value := rt[3..];
        r := QfeRemark(rt, value);
        lines := lines + [QFE_TEXT + ReplaceChar(value, '/', MM_HG_EXTRA) + MM_HG];
      } else if StartsWith(rt, "QBB") {
        r := QbbRemark(rt, rt[3..]);
        lines := lines + [QBB_TEXT + rt[3..] + METRES];
      } else {
        r := UnknownRemark(rt);
        lines := lines + [UNKNOWN_REMARK + rt];
      }
      RemarkSingle(rts, j, recs);
      TextsAppend(recs, r);
      recs := recs + [r];
      j := j + 1;
    }
  }

  lemma RemarkPair(rts: seq<string>, j: nat, recs: seq<RemarkRec>, r: RemarkRec)
    requires j + 1 < |rts| && recs + Remarks5(rts[j..]) == Remarks5(rts)
    requires Remarks5(rts[j..]) == [r] + Remarks5(rts[j..][2..])
    ensures (recs + [r]) + Remarks5(rts[j + 2..]) == Remarks5(rts)
  {
    assert rts[j..][2..] == rts[j + 2..];
    MoveHead(recs, r, Remarks5(rts[j..]), Remarks5(rts[j + 2..]), Remarks5(rts));
  }

  /** Moving the head of the unread part to the end of the read part. */
  lemma MoveHead<T>(done: seq<T>, r: T, todo: seq<T>, rest: seq<T>, whole: seq<T>)
    requires done + todo == whole && todo == [r] + rest
    ensures (done + [r]) + rest == whole
  {
    assert done + ([r] + rest) == (done + [r]) + rest;
  }

  lemma RemarkSingle(rts: seq<string>, j: nat, recs: seq<RemarkRec>)
    requires j < |rts| && recs + Remarks5(rts[j..]) == Remarks5(rts)
    requires !(j + 1 < |rts| && (rts[j] + " " + rts[j + 1] == "MT OBSC" || rts[j] + " " + rts[j + 1] == "OBST OBSC"))
    ensures (recs + [SingleRemark5(rts[j])]) + Remarks5(rts[j + 1..]) == Remarks5(rts)
  {
    assert rts[j..][1..] == rts[j + 1..];
    assert rts[j..][0] == rts[j];
  }

  lemma {:induction false} TextsAppend(recs: seq<RemarkRec>, r: RemarkRec)
    ensures RemarkTexts5(recs + [r]) == RemarkTexts5(recs) + [RemarkText5(r)]
  {
  }

  /** Without OBSC no two remark tokens are read together: each gives its
      own record. */
  lemma {:induction false} RemarksOneByOne(rts: seq<string>)
    requires forall k :: 0 <= k < |rts| ==> rts[k] != "OBSC" && NoSpace(rts[k])
    ensures |Remarks5(rts)| == |rts|
    ensures forall k :: 0 <= k < |rts| ==> Remarks5(rts)[k] == SingleRemark5(rts[k])
    decreases |rts|
  {
    if rts != [] {
      if |rts| >= 2 {
        NotAPhrase(rts[0], rts[1]);
      }
      RemarksOneByOne(rts[1..]);
    }
  }

  lemma NotAPhrase(a: string, b: string)
    requires NoSpace(a) && b != "OBSC"
    ensures a + " " + b != "MT OBSC" && a + " " + b != "OBST OBSC"
  {
    var w := a + " " + b;
    assert w[|a|] == ' ' && w[|a| + 1..] == b;
    assert |a| > 2 ==> a[2] == w[2];
    assert |a| > 4 ==> a[4] == w[4];
    assert "MT OBSC"[3..] == "OBSC" && "OBST OBSC"[5..] == "OBSC";
    assert forall k :: 0 <= k < 2 ==> "MT OBSC"[k] != ' ';
    assert forall k :: 0 <= k < 4 ==> "OBST OBSC"[k] != ' ';
  }

  /** The scan is greedy from the left: in MT OBST OBSC it is OBST that
      pairs with OBSC. */
  lemma RemarksPairFromLeft()
    ensures Remarks5(["MT", "OBST", "OBSC"]) == [UnknownRemark("MT"), ObstaclesObscured]
  {
    assert ("MT" + " " + "OBST")[6] == 'T';
    assert ["MT", "OBST", "OBSC"][1..] == ["OBST", "OBSC"];
    assert ["OBST", "OBSC"][2..] == [];
  }

  /** The header appears exactly when there are remarks, then one line per
      record, a phrase counted once. */
  lemma RemarkLines5Shape(rts: seq<string>)
    ensures RemarkLines5(rts) == [] <==> rts == []
    ensures rts != [] ==> RemarkLines5(rts)[0] == REMARKS_HEADER && |RemarkLines5(rts)| == 1 + |Remarks5(rts)|
  {
  }

  lemma {:induction false} ReplaceCharConcat(x: string, y: string, c: char, rep: string)
    ensures ReplaceChar(x + y, c, rep) == ReplaceChar(x, c, rep) + ReplaceChar(y, c, rep)
    decreases |x|
  {
    if x != [] {
      assert (x + y)[1..] == x[1..] + y;
      ReplaceCharConcat(x[1..], y, c, rep);
    } else {
      assert x + y == y;
    }
  }

  /** One '/' in a QFE value: the text gives the value before it in mm Hg
      and opens the additional value after it. */
  lemma QfeSlash5(a: string, b: string, rep: string)
    requires '/' !in a && '/' !in b
    ensures ReplaceChar(a + "/" + b, '/', rep) == a + rep + b
  {
    var tail := "/" + b;
    calc {
      ReplaceChar(a + "/" + b, '/', rep);
      { assert a + "/" + b == a + tail; }
      ReplaceChar(a + tail, '/', rep);
      { ReplaceCharConcat(a, tail, '/', rep); }
      ReplaceChar(a, '/', rep) + ReplaceChar(tail, '/', rep);
      { ReplaceCharAbsent(a, '/', rep); SlashFirst(b, rep); }
      a + (rep + ReplaceChar(b, '/', rep));
      { ReplaceCharAbsent(b, '/', rep); }
      a + (rep + b);
      a + rep + b;
    }
  }

  lemma SlashFirst(b: string, rep: string)
    ensures ReplaceChar("/" + b, '/', rep) == rep + ReplaceChar(b, '/', rep)
  {
    assert ("/" + b)[1..] == b;
  }

  lemma QfeLine5(a: string, b: string)
    requires '/' !in a && '/' !in b
    ensures RemarkText5(QfeRemark("QFE" + a + "/" + b, a + "/" + b)) == QFE_TEXT + a + MM_HG_EXTRA + b + MM_HG
  {
    QfeSlash5(a, b, MM_HG_EXTRA);
  }

  // ---------------------------------------------------------------------
  // main2.py and main.py
  // ---------------------------------------------------------------------

  const REMARK_LABEL: string := "Ремарка: "
  const QFE_REMARK: string := REMARK_LABEL + "Давление QFE "
  const QBB_REMARK: string := REMARK_LABEL + "Нижняя граница облаков "
  const OBST_REMARK: string := REMARK_LABEL + "Препятствия закрыты облаками"
  const MT_REMARK: string := REMARK_LABEL + "Горы закрыты облаками"
  const ICE_REMARK: string := REMARK_LABEL + "Обледенение"
  const TURB_REMARK: string := REMARK_LABEL + "Турбулентность"
  const EXTRA_OPEN: string := " мм рт.ст. (доп. "

  /** The position of the first c in s. */
  function IndexOf(s: string, c: char): (k: nat)
    requires c in s
    ensures k < |s| && s[k] == c && c !in s[..k]
  {
    if s[0] == c then 0
    else
      assert c in s[1..] by { assert s == [s[0]] + s[1..]; }
      var k := 1 + IndexOf(s[1..], c);
      assert s[..k] == [s[0]] + s[1..][..k - 1];
      k
  }

  /** The QFE line: main2.py (split) divides the value at the first '/',
      main.py prints it as it is. */
  function QfeLine(split: bool, value: string): string
  {
    if split && '/' in value then
      var k := IndexOf(value, '/');
      QFE_REMARK + value[..k] + EXTRA_OPEN + value[k + 1..] + ")"
    else QFE_REMARK + value + MM_HG
  }

  /** One remark token of the for-loop: OBST and MT get their fixed wording
      only when OBSC is somewhere among the remarks; OBSC writes nothing. */
  function RemarkLine2(split: bool, rt: string, all: seq<string>): Option<string>
  {
    if StartsWith(rt, "QFE") then Some(QfeLine(split, rt[3..]))
    else if StartsWith(rt, "QBB") then Some(QBB_REMARK + rt[3..] + METRES)
    else if rt == "OBST" && "OBSC" in all then Some(OBST_REMARK)
    else if rt == "MT" && "OBSC" in all then Some(MT_REMARK)
    else if rt == "OBSC" then None
    else if StartsWith(rt, "ICE") then Some(ICE_REMARK)
    else if StartsWith(rt, "TURB") then Some(TURB_REMARK)
    else Some(REMARK_LABEL + rt)
  }

  /** The lines of the remarks xs, a prefix of all. */
  function RemarkLines2(split: bool, all: seq<string>, xs: seq<string>): seq<string>
  {
    if xs == [] then []
    else
      RemarkLines2(split, all, xs[..|xs| - 1])
      + match RemarkLine2(split, xs[|xs| - 1], all) case Some(line) => [line] case None => []
  }

  /** The for-loop. */
  method RemarkLoop2(split: bool, rts: seq<string>) returns (lines: seq<string>)
    ensures lines == RemarkLines2(split, rts, rts)
  {
    lines := [];
    for k := 0 to |rts|
      invariant lines == RemarkLines2(split, rts, rts[..k])
    {
      assert rts[..k + 1][..k] == rts[..k];
      var rt := rts[k];
      if StartsWith(rt, "QFE") {
        var value := rt[3..];
        if split && '/' in value {
          var cut := IndexOf(value, '/');
          lines := lines + [QFE_REMARK + value[..cut] + EXTRA_OPEN + value[cut + 1..] + ")"];
        } else {
          lines := lines + [QFE_REMARK + value + MM_HG];
        }
      } else if StartsWith(rt, "QBB") {
        lines := lines + [QBB_REMARK + rt[3..] + METRES];
      } else if rt == "OBST" && "OBSC" in rts {
        lines := lines + [OBST_REMARK];
      } else if rt == "MT" && "OBSC" in rts {
        lines := lines + [MT_REMARK];
      } else if rt == "OBSC" {
        continue;
      } else if StartsWith(rt, "ICE") {
        lines := lines + [ICE_REMARK];
      } else if StartsWith(rt, "TURB") {
        lines := lines + [TURB_REMARK];
      } else {
        lines := lines + [REMARK_LABEL + rt];
      }
    }
    assert rts[..|rts|] == rts;
  }

  /** main2.py splits the QFE value at the first '/'; main.py prints it
      whole. */
  lemma QfeLineSplit(a: string, b: string)
    requires '/' !in a
    ensures QfeLine(true, a + "/" + b) == QFE_REMARK + a + EXTRA_OPEN + b + ")"
    ensures QfeLine(false, a + "/" + b) == QFE_REMARK + a + "/" + b + MM_HG
  {
    var value := a + "/" + b;
    assert value[..|a|] == a && value[|a|] == '/';
    IndexOfFirst(value, '/', |a|);
    assert value[|a| + 1..] == b;
    assert '/' in value;
    QfeLineAt(value, |a|);
    QfeLineWhole(value);
  }

  /** With the first '/' at k, main2.py's line opens the extra value there. */
  lemma QfeLineAt(value: string, k: nat)
    requires '/' in value && IndexOf(value, '/') == k
    ensures QfeLine(true, value) == QFE_REMARK + value[..k] + EXTRA_OPEN + value[k + 1..] + ")"
  {
  }

  lemma QfeLineWhole(value: string)
    ensures QfeLine(false, value) == QFE_REMARK + value + MM_HG
  {
  }

  lemma IndexOfFirst(s: string, c: char, n: nat)
    requires n < |s| && s[n] == c && c !in s[..n]
    ensures IndexOf(s, c) == n
  {
  }

  /** The wording of OBST and MT depends on OBSC being among the remarks;
      OBSC itself writes nothing. */
  lemma ObscuredWording(split: bool, all: seq<string>)
    ensures RemarkLine2(split, "OBST", all) == Some(OBST_REMARK) <==> "OBSC" in all
    ensures RemarkLine2(split, "MT", all) == Some(MT_REMARK) <==> "OBSC" in all
    ensures RemarkLine2(split, "OBSC", all).None?
  {
    assert |REMARK_LABEL + "OBST"| != |OBST_REMARK|;
    assert |REMARK_LABEL + "MT"| != |MT_REMARK|;
    OtherFirstLetter("OBST", "QFE");
    OtherFirstLetter("OBST", "QBB");
    OtherFirstLetter("OBSC", "QFE");
    OtherFirstLetter("OBSC", "QBB");
  }

  lemma OtherFirstLetter(s: string, p: string)
    requires s != [] && p != [] && s[0] != p[0]
    ensures !StartsWith(s, p)
  {
    assert |p| <= |s| ==> s[..|p|][0] == s[0];
  }

  /** How often w occurs in xs. */
  function CountOf(xs: seq<string>, w: string): (n: nat)
    ensures n <= |xs|
  {
    if xs == [] then 0 else CountOf(xs[..|xs| - 1], w) + (if xs[|xs| - 1] == w then 1 else 0)
  }

  /** The for-loop writes one line per remark token except OBSC, and every
      line is labelled as a remark. */
  lemma {:induction false} RemarkLines2Count(split: bool, all: seq<string>, xs: seq<string>)
    ensures |RemarkLines2(split, all, xs)| + CountOf(xs, "OBSC") == |xs|
    ensures forall k :: 0 <= k < |RemarkLines2(split, all, xs)| ==> StartsWith(RemarkLines2(split, all, xs)[k], REMARK_LABEL)
  {
    if xs != [] {
      RemarkLines2Count(split, all, xs[..|xs| - 1]);
      RemarkLineLabelled(split, xs[|xs| - 1], all);
    }
  }

  lemma Labelled(tail: string)
    ensures StartsWith(REMARK_LABEL + tail, REMARK_LABEL)
  {
    assert (REMARK_LABEL + tail)[..|REMARK_LABEL|] == REMARK_LABEL;
  }

  lemma RemarkLineLabelled(split: bool, rt: string, all: seq<string>)
    ensures RemarkLine2(split, rt, all).None? <==> rt == "OBSC"
    ensures RemarkLine2(split, rt, all).Some? ==> StartsWith(RemarkLine2(split, rt, all).value, REMARK_LABEL)
  {
    if rt == "OBSC" {
      OtherFirstLetter(rt, "QFE");
      OtherFirstLetter(rt, "QBB");
    } else if StartsWith(rt, "QFE") {
      var value := rt[3..];
      if split && '/' in value {
        var k := IndexOf(value, '/');
        Labelled("Давление QFE " + value[..k] + EXTRA_OPEN + value[k + 1..] + ")");
      } else {
        Labelled("Давление QFE " + value + MM_HG);
      }
    } else if StartsWith(rt, "QBB") {
      Labelled("Нижняя граница облаков " + rt[3..] + METRES);
    } else if rt == "OBST" && "OBSC" in all {
      Labelled("Препятствия закрыты облаками");
    } else if rt == "MT" && "OBSC" in all {
      Labelled("Горы закрыты облаками");
    } else if StartsWith(rt, "ICE") {
      Labelled("Обледенение");
    } else if StartsWith(rt, "TURB") {
      Labelled("Турбулентность");
    } else {
      Labelled(rt);
    }
  }
}

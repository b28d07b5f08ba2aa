/** The default diagnostic of the "assume" macros: the macro's name, then the
    debug renderings of both operands, each between backticks. */
module Diagnostics {
  import opened DebugFormat

  const Opening: string := "assumption failed: `"
  const Operands: string := "(left, right)`\n  left: `"
  const RightLabel: string := "\n right: `"

  /** `format!("assumption failed: `<name>(left, right)`\n  left: `{:?}`\n right: `{:?}`", left, right)` */
  function AssumptionFailed(name: string, left: int, right: int): (msg: string)
    ensures |msg| > |Opening| + |name|
    ensures msg[..|Opening| + |name|] == Opening + name
    ensures msg[|msg| - 1] == '`'
  {
    Opening + name + Operands + Show(left) + "`" + RightLabel + Show(right) + "`"
  }

  /** Two strings that each put a mark after a mark-free prefix agree on the
      prefix and on what follows the mark. */
  lemma SplitAtMark(x: string, y: string, u: string, v: string, mark: char)
    requires mark !in x && mark !in u
    requires x + [mark] + y == u + [mark] + v
    ensures x == u && y == v
  {
    var s := x + [mark] + y;
    var t := u + [mark] + v;
    assert s[|x|] == mark && forall i :: 0 <= i < |x| ==> s[i] == x[i];
    assert t[|u|] == mark && forall i :: 0 <= i < |u| ==> t[i] == u[i];
    assert |x| == |u|;
    assert x == s[..|x|];
    assert u == s[..|u|];
    assert y == s[|x| + 1..];
    assert v == s[|u| + 1..];
  }

  /** The text shape of the diagnostic: a shared head, two backtick-free
      renderings each closed by a backtick, separated by a shared between. */
  lemma SplitDiagnostic(head: string, between: string, sa: string, sb: string, sc: string, sd: string)
    requires '`' !in sa && '`' !in sc
    requires head + sa + "`" + between + sb + "`" == head + sc + "`" + between + sd + "`"
    ensures sa == sc && sb == sd
  {
    var m1 := head + sa + "`" + between + sb + "`";
    var m2 := head + sc + "`" + between + sd + "`";
    var y := between + sb + "`";
    var v := between + sd + "`";
    assert m1 == head + (sa + ['`'] + y);
    assert m2 == head + (sc + ['`'] + v);
    assert sa + ['`'] + y == m1[|head|..] == sc + ['`'] + v;
    SplitAtMark(sa, y, sc, v, '`');
    assert sb == y[|between|..|y| - 1];
    assert sd == v[|between|..|v| - 1];
  }

  /** The default diagnostic determines both operands: two checks of the same
      macro that fail with the same text were given the same operands. */
  lemma OperandsRecoverable(name: string, a: int, b: int, c: int, d: int)
    requires AssumptionFailed(name, a, b) == AssumptionFailed(name, c, d)
    ensures a == c && b == d
  {
    SplitDiagnostic(Opening + name + Operands, RightLabel, Show(a), Show(b), Show(c), Show(d));
    ShowInjective(a, c);
    ShowInjective(b, d);
  }

  /** The diagnostic written out with the operands' renderings in place. */
  lemma Spelled(name: string, left: int, right: int)
    ensures AssumptionFailed(name, left, right)
      == "assumption failed: `" + name + "(left, right)`\n  left: `" + Show(left) + "`\n right: `" + Show(right) + "`"
  {
  }
}

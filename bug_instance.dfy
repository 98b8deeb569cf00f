/**
 * The bug report record of pascal.taie.analysis.bugfinder.BugInstance: a bug type and
 * severity fixed at construction, plus a class, a method and a source-line range that the
 * fluent setters fill in place.
 */
module BugInstances {
  import opened Wrappers

  /** The kind of bug reported; an external enumeration, identified here by an index. */
  datatype BugType = BugType(id: nat)

  datatype Severity = Severity(id: nat)

  datatype JClass = JClass(id: nat)

  /** A method of the analysed program, with the class that declares it. */
  datatype JMethod = JMethod(id: nat, declaringClass: JClass)

  /** The decimal text of a natural number, as `String.valueOf` writes it: no leading zero, and it reads back as `n`. */
  function NatToString(n: nat): (r: string)
    ensures |r| > 0 && IsDigits(r)
    ensures DecimalValue(r) == n
    ensures n < 10 <==> |r| == 1
    ensures |r| > 1 ==> r[0] != '0'
    decreases n
  {
    if n < 10 then [Digit(n)]
    else
      var r := NatToString(n / 10) + [Digit(n % 10)];
      assert r[..|r| - 1] == NatToString(n / 10);
      r
  }

  /** The ASCII character of the decimal digit `d`. */
  function Digit(d: nat): (c: char)
    requires d < 10
    ensures '0' <= c <= '9' && DigitValue(c) == d
  {
    (d + '0' as int) as char
  }

  /** The value of a decimal digit character. */
  function DigitValue(c: char): int {
    c as int - '0' as int
  }

  predicate IsDigits(s: string)
  {
    forall i | 0 <= i < |s| :: '0' <= s[i] <= '9'
  }

  /** The number a string of decimal digits denotes, most significant digit first. */
  function DecimalValue(s: string): nat
    requires IsDigits(s)
    decreases |s|
  {
    if s == [] then 0 else DecimalValue(s[..|s| - 1]) * 10 + DigitValue(s[|s| - 1])
  }

  /** The decimal text of an integer: a minus sign before the digits of a negative number. */
  function IntToString(n: int): (r: string)
    ensures |r| > 0
    ensures n >= 0 ==> IsDigits(r) && DecimalValue(r) == n
    ensures n < 0 ==> r[0] == '-' && IsDigits(r[1..]) && DecimalValue(r[1..]) == -n
  {
    if n >= 0 then NatToString(n) else "-" + NatToString(-n)
  }

  /**
   * The line-range part of `toString`: "empty" while no line is known (a negative start),
   * the start line alone for a one-line range, and "start---end" otherwise.
   */
  function LineRange(start: int, end: int): string
  {
    if start < 0 then "empty"
    else if start == end then IntToString(start)
    else IntToString(start) + "---" + IntToString(end)
  }

  class BugInstance {
    const bugType: BugType
    const severity: Severity
    var jClass: Option<JClass>
    var jMethod: Option<JMethod>
    var sourceLineStart: int
    var sourceLineEnd: int

    /** A new report has no class or method yet and the empty line range -1 .. -2. */
    constructor (bugType: BugType, severity: Severity)
      ensures this.bugType == bugType && this.severity == severity
      ensures jClass == None && jMethod == None
      ensures sourceLineStart == -1 && sourceLineEnd == -2
    {
      this.bugType := bugType;
      this.severity := severity;
      jClass := None;
      jMethod := None;
      sourceLineStart := -1;
      sourceLineEnd := -2;
    }

    method SetClass(c: JClass) returns (self: BugInstance)
      modifies this
      ensures self == this
      ensures jClass == Some(c)
      ensures jMethod == old(jMethod) && sourceLineStart == old(sourceLineStart) && sourceLineEnd == old(sourceLineEnd)
    {
      jClass := Some(c);
      self := this;
    }

    method SetMethod(m: JMethod) returns (self: BugInstance)
      modifies this
      ensures self == this
      ensures jMethod == Some(m)
      ensures jClass == old(jClass) && sourceLineStart == old(sourceLineStart) && sourceLineEnd == old(sourceLineEnd)
    {
      jMethod := Some(m);
      self := this;
    }

    /** `setClassAndMethod(m)`: the method `m` and the class that declares it. */
    method SetClassAndMethod(m: JMethod) returns (self: BugInstance)
      modifies this
      ensures self == this
      ensures jMethod == Some(m) && jClass == Some(m.declaringClass)
      ensures sourceLineStart == old(sourceLineStart) && sourceLineEnd == old(sourceLineEnd)
    {
      var _ := SetMethod(m);
      var _ := SetClass(m.declaringClass);
      self := this;
    }

    /** `setSourceLine(num)`: a one-line range. */
    method SetSourceLine(num: int) returns (self: BugInstance)
      modifies this
      ensures self == this
      ensures sourceLineStart == num && sourceLineEnd == num
      ensures jClass == old(jClass) && jMethod == old(jMethod)
    {
      sourceLineEnd := num;
      sourceLineStart := sourceLineEnd;
      self := this;
    }

    /** `setSourceLine(start, end)`: the range as given; no order between the two is demanded. */
    method SetSourceLineRange(start: int, end: int) returns (self: BugInstance)
      modifies this
      ensures self == this
      ensures sourceLineStart == start && sourceLineEnd == end
      ensures jClass == old(jClass) && jMethod == old(jMethod)
    {
      sourceLineStart := start;
      sourceLineEnd := end;
      self := this;
    }

    /** The line-range part of `toString` for this report. */
    function SourceLineRange(): string
      reads this
    {
      LineRange(sourceLineStart, sourceLineEnd)
    }

    /**
     * `equals(Object o)`: the same object, or another report with the same bug type, class,
     * method and line range. The severity takes no part.
     */
    predicate Equals(o: object?)
      reads this, o
    {
      if o == this then true
      else if !(o is BugInstance) then false
      else
        var b := o as BugInstance;
        bugType == b.bugType && jClass == b.jClass && jMethod == b.jMethod
        && sourceLineStart == b.sourceLineStart && sourceLineEnd == b.sourceLineEnd
    }

    /** `hashCode()`: `Objects.hash` (a parameter here) over the fields `equals` compares. */
    function HashCode(hash: (BugType, Option<JClass>, Option<JMethod>, int, int) -> int): int
      reads this
    {
      hash(bugType, jClass, jMethod, sourceLineStart, sourceLineEnd)
    }

    /** `compareTo(o)`: `Integer.compare` of the start lines; nothing else is looked at. */
    function CompareTo(o: BugInstance): int
      reads this, o
    {
      if sourceLineStart < o.sourceLineStart then -1
      else if sourceLineStart == o.sourceLineStart then 0
      else 1
    }
  }

  /** `newBugInstance`: a report for `method` at one line. */
  method NewBugInstance(bugType: BugType, severity: Severity, m: JMethod, lineNum: int) returns (b: BugInstance)
    ensures fresh(b)
    ensures b.bugType == bugType && b.severity == severity
    ensures b.jMethod == Some(m) && b.jClass == Some(m.declaringClass)
    ensures b.sourceLineStart == lineNum && b.sourceLineEnd == lineNum
  {
    b := new BugInstance(bugType, severity);
    var _ := b.SetClassAndMethod(m);
    var _ := b.SetSourceLine(lineNum);
  }

  /** Different numbers have different decimal texts, since each text reads back as its number. */
  lemma NatToStringInjective(a: nat, b: nat)
    requires NatToString(a) == NatToString(b)
    ensures a == b
  {
    assert a == DecimalValue(NatToString(a)) == DecimalValue(NatToString(b)) == b;
  }

  lemma IntToStringInjective(a: int, b: int)
    requires IntToString(a) == IntToString(b)
    ensures a == b
  {
    var ra := IntToString(a);
    if a >= 0 && b >= 0 {
      NatToStringInjective(a, b);
    } else if a < 0 && b < 0 {
      assert NatToString(-a) == ra[1..] == NatToString(-b);
      NatToStringInjective(-a, -b);
    }
  }

  /** In a digit string followed by "---", the first dash comes right after the digits. */
  lemma FirstDashAfterDigits(d: string, x: string)
    requires IsDigits(d)
    ensures forall i | 0 <= i < |d| :: (d + "---" + x)[i] != '-'
    ensures (d + "---" + x)[|d|] == '-'
  {
  }

  /** Digits, "---", then anything: the digits and the rest can be read back apart. */
  lemma SplitAtFirstDash(d1: string, x1: string, d2: string, x2: string)
    requires IsDigits(d1) && IsDigits(d2)
    requires d1 + "---" + x1 == d2 + "---" + x2
    ensures d1 == d2 && x1 == x2
  {
    var r := d1 + "---" + x1;
    FirstDashAfterDigits(d1, x1);
    FirstDashAfterDigits(d2, x2);
    assert |d1| == |d2|;
    assert d1 == r[..|d1|] == d2;
    assert x1 == r[|d1| + 3..] == x2;
  }

  /** A rendered range is "empty" exactly when the start line is negative. */
  lemma LineRangeEmptyIffNoStart(start: int, end: int)
    ensures LineRange(start, end) == "empty" <==> start < 0
  {
    if start >= 0 {
      var r := LineRange(start, end);
      assert '0' <= r[0] <= '9';
      assert "empty"[0] == 'e';
    }
  }

  /** With a known start, the rendered range is all digits exactly when it is a one-line range. */
  lemma OneLineIffDigits(start: int, end: int)
    requires start >= 0
    ensures IsDigits(LineRange(start, end)) <==> start == end
  {
    if start != end {
      var d := IntToString(start);
      FirstDashAfterDigits(d, IntToString(end));
      assert LineRange(start, end)[|d|] == '-';
    }
  }

  /**
   * A rendered range with a known start determines the range it came from: the start line,
   * whether it was a one-line range, and otherwise the end line.
   */
  lemma LineRangeDeterminesRange(s1: int, e1: int, s2: int, e2: int)
    requires s1 >= 0 && s2 >= 0
    requires LineRange(s1, e1) == LineRange(s2, e2)
    ensures s1 == s2
    ensures s1 == e1 <==> s2 == e2
    ensures s1 != e1 ==> e1 == e2
  {
    OneLineIffDigits(s1, e1);
    OneLineIffDigits(s2, e2);
    var d1, d2 := IntToString(s1), IntToString(s2);
    if s1 == e1 {
      IntToStringInjective(s1, s2);
    } else {
      var x1, x2 := IntToString(e1), IntToString(e2);
      SplitAtFirstDash(d1, x1, d2, x2);
      IntToStringInjective(s1, s2);
      IntToStringInjective(e1, e2);
    }
  }

  /** Report equality is an equivalence relation. */
  lemma EqualsIsEquivalence(a: BugInstance, b: BugInstance, c: BugInstance)
    ensures a.Equals(a)
    ensures a.Equals(b) ==> b.Equals(a)
    ensures a.Equals(b) && b.Equals(c) ==> a.Equals(c)
  {
  }

  /** Two reports are equal exactly when bug type, class, method and both line numbers agree. */
  lemma EqualsIffSameFields(a: BugInstance, b: BugInstance)
    ensures a.Equals(b) <==> (a.bugType == b.bugType && a.jClass == b.jClass && a.jMethod == b.jMethod
                              && a.sourceLineStart == b.sourceLineStart && a.sourceLineEnd == b.sourceLineEnd)
  {
  }

  /** A report never equals null. */
  lemma NeverEqualsNull(a: BugInstance)
    ensures !a.Equals(null)
  {
  }

  /** Equal reports have equal hash codes, whatever the hash function. */
  lemma EqualReportsHaveEqualHashes(a: BugInstance, b: BugInstance, hash: (BugType, Option<JClass>, Option<JMethod>, int, int) -> int)
    requires a.Equals(b)
    ensures a.HashCode(hash) == b.HashCode(hash)
  {
  }

  /**
   * `compareTo` is a total preorder on start lines: antisymmetric in sign, transitive, and
   * zero exactly when the start lines agree.
   */
  lemma CompareToOrdersByStart(a: BugInstance, b: BugInstance, c: BugInstance)
    ensures a.CompareTo(b) == 0 <==> a.sourceLineStart == b.sourceLineStart
    ensures a.CompareTo(b) < 0 <==> a.sourceLineStart < b.sourceLineStart
    ensures a.CompareTo(b) == -b.CompareTo(a)
    ensures a.CompareTo(b) <= 0 && b.CompareTo(c) <= 0 ==> a.CompareTo(c) <= 0
  {
  }

  /**
   * The order is coarser than equality: reports with the same start line compare as equal
   * even when their end lines, classes or methods differ.
   */
  method CompareToIgnoresOtherFields(t: BugType, s: Severity, m: JMethod)
  {
    var a := NewBugInstance(t, s, m, 7);
    var b := NewBugInstance(t, s, m, 7);
    var _ := b.SetSourceLineRange(7, 9);
    assert a.CompareTo(b) == 0;
    assert !a.Equals(b);
  }

  /** How the line range of a report reads as its setters are applied. */
  method LineRangeScenario(t: BugType, s: Severity)
  {
    var b := new BugInstance(t, s);
    assert b.SourceLineRange() == "empty";
    var _ := b.SetSourceLine(12);
    assert b.SourceLineRange() == "12";
    var _ := b.SetSourceLineRange(12, 15);
    assert b.SourceLineRange() == "12---15";
  }
}

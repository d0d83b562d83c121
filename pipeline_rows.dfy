/** The rows of the `pipeline_responses` table as the Dashboard and Summary
    pages receive them, and the reductions both pages apply to them. */
module PipelineRows {
  import opened Json

  /** One saved pipeline configuration; `pipelineData` maps section names
      (`dataEntry`, `qc`, …) to whatever JSON was saved under them. */
  datatype PipelineResponse = PipelineResponse(
    id: string,
    userId: string,
    userName: string,
    status: string,
    createdAt: string,
    updatedAt: string,
    pipelineData: map<string, Json>)

  function Statuses(rows: seq<PipelineResponse>): (r: seq<string>)
    ensures |r| == |rows|
    ensures forall i :: 0 <= i < |rows| ==> r[i] == rows[i].status
  {
    seq(|rows|, i requires 0 <= i < |rows| => rows[i].status)
  }

  function UserNames(rows: seq<PipelineResponse>): (r: seq<string>)
    ensures |r| == |rows|
    ensures forall i :: 0 <= i < |rows| ==> r[i] == rows[i].userName
  {
    seq(|rows|, i requires 0 <= i < |rows| => rows[i].userName)
  }

  function UserIds(rows: seq<PipelineResponse>): (r: seq<string>)
    ensures |r| == |rows|
    ensures forall i :: 0 <= i < |rows| ==> r[i] == rows[i].userId
  {
    seq(|rows|, i requires 0 <= i < |rows| => rows[i].userId)
  }

  /** `rows.filter(r => r.status === status).length`: the number of rows whose
      status is exactly `status`. */
  function CountStatus(rows: seq<PipelineResponse>, status: string): (n: nat)
    ensures n == multiset(Statuses(rows))[status]
    ensures n <= |rows|
    decreases |rows|
  {
    if rows == [] then 0
    else
      assert Statuses(rows) == [rows[0].status] + Statuses(rows[1..]);
      (if rows[0].status == status then 1 else 0) + CountStatus(rows[1..], status)
  }

  /** Rows are counted under at most one of three distinct statuses. */
  lemma {:induction false} ThreeStatusesBounded(rows: seq<PipelineResponse>, s1: string, s2: string, s3: string)
    requires s1 != s2 && s1 != s3 && s2 != s3
    ensures CountStatus(rows, s1) + CountStatus(rows, s2) + CountStatus(rows, s3) <= |rows|
    decreases |rows|
  {
    if rows != [] {
      ThreeStatusesBounded(rows[1..], s1, s2, s3);
    }
  }

  /** Rows are counted under at most one of two distinct statuses. */
  lemma TwoStatusesBounded(rows: seq<PipelineResponse>, s1: string, s2: string)
    requires s1 != s2
    ensures CountStatus(rows, s1) + CountStatus(rows, s2) <= |rows|
  {
    var s3 := s1 + s2 + "!";
    assert |s3| > |s1| && |s3| > |s2|;
    ThreeStatusesBounded(rows, s1, s2, s3);
  }

  /** `new Set(xs).size`: the number of distinct values among `xs`; it never
      exceeds the number of values and is zero only for no values. */
  function DistinctCount(xs: seq<string>): (n: nat)
    ensures n == |set x | x in xs|
    ensures n <= |xs|
    ensures n == 0 <==> xs == []
  {
    DistinctBounded(xs);
    var distinct := set x | x in xs;
    assert xs != [] ==> xs[0] in distinct && |distinct - {xs[0]}| == |distinct| - 1;
    assert xs == [] ==> distinct == {};
    |distinct|
  }

  lemma {:induction false} DistinctBounded(xs: seq<string>)
    ensures |set x | x in xs| <= |xs|
    decreases |xs|
  {
    if xs != [] {
      DistinctBounded(xs[1..]);
      assert (set x | x in xs) == (set x | x in xs[1..]) + {xs[0]};
    }
  }

  /** `Math.round(num / den)` computed exactly: the integer nearest to
      `num / den`, halves rounded up. */
  function RoundHalfUp(num: nat, den: nat): (r: nat)
    requires den > 0
    ensures 2 * den * r <= 2 * num + den < 2 * den * (r + 1)
  {
    (2 * num + den) / (2 * den)
  }

  /** The bounds in RoundHalfUp's contract determine its result: any `q` that
      meets them is the rounded value. */
  lemma RoundHalfUpUnique(num: nat, den: nat, q: nat)
    requires den > 0
    requires 2 * den * q <= 2 * num + den < 2 * den * (q + 1)
    ensures RoundHalfUp(num, den) == q
  {
    var r := RoundHalfUp(num, den);
    if r < q {
      MulMono(2 * den, r + 1, q);
    } else if r > q {
      MulMono(2 * den, q + 1, r);
    }
  }

  lemma MulMono(a: nat, x: nat, y: nat)
    requires x <= y
    ensures a * x <= a * y
  {
  }

  /** A rounded share of at most the whole, in percent, lies in 0..100. */
  lemma PercentBounded(part: nat, whole: nat)
    requires 0 < whole && part <= whole
    ensures RoundHalfUp(100 * part, whole) <= 100
  {
    var r := RoundHalfUp(100 * part, whole);
    MulMono(200, part, whole);
    assert 2 * whole * r < 2 * whole * 101;
    MulCancel(2 * whole, r, 101);
  }

  lemma MulCancel(a: nat, x: nat, y: nat)
    requires a > 0 && a * x < a * y
    ensures x < y
  {
    if x >= y {
      MulMono(a, y, x);
    }
  }
}

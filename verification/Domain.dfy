/** The parts of a ranked move and of a daily bar that the decision logic reads. */
module Domain {

  datatype RankedMove = RankedMove(
    key: string,
    title: string,
    confidence: real,
    rawConfidence: real,
    dependsOn: seq<string>,
    parallelGroup: string)

  datatype Bar = Bar(date: int, close: real)

  ghost predicate NoDuplicates<T>(s: seq<T>) {
    forall i, j :: 0 <= i < j < |s| ==> s[i] != s[j]
  }
}

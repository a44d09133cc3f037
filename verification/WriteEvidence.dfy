/** What the API adapter reports to its caller between its writes. */
module WriteEvidence {
  import opened Wrappers
  import opened LinkKeys
  import opened DiscountBody

  datatype EvidenceKind = Readback | LinkReadback | OtherEvidence

  datatype Evidence = Evidence(kind: EvidenceKind, matched: bool, discountId: Option<string>, saved: Option<Row>, links: seq<Key>)

  /** Acknowledgments and final readbacks, which carry nothing the caller goes by. */
  const OTHER := Evidence(OtherEvidence, false, None, None, [])
}

/** Values shared by the launch table, the pagination bar and the dashboard. */
module Records {

  datatype Option<T> = None | Some(value: T)

  /** The `launch_success` field of a launch record.  The API sends `true`,
      `false` or `null`; any other JSON value is `Other`, described by the two
      facts the components observe about it: whether it is truthy, and whether
      it is loosely equal (`==`) to `true`, as the number 1 or the string "1" are. */
  datatype Status = True | False | Null | Other(truthy: bool, looseTrue: bool)

  /** JavaScript truthiness, as used by an `x ? a : b` condition. */
  predicate Truthy(s: Status)
  {
    match s
    case True => true
    case False => false
    case Null => false
    case Other(t, _) => t
  }

  /** JavaScript's loose comparison `s == true`. */
  predicate LooselyTrue(s: Status)
  {
    match s
    case True => true
    case False => false
    case Null => false
    case Other(_, lt) => lt
  }

  /** A launch record, reduced to the fields the filter and the status cells use.
      The other fields (mission, site, rocket, orbit, date) are only displayed. */
  datatype Launch = Launch(flightNumber: int, upcoming: bool, success: Status)

  /** One rendered table row: the `No` cell, the launch it shows, and the text and
      background colour of its status box. */
  datatype Row = Row(no: int, launch: Launch, statusText: string, statusColor: string)

  /** `launches.map((launch, index) => <tr> ... )`, as both tables render it:
      one row per launch, in order, numbered `index + 1`, its status box drawn
      with the table's own `text` and `color` functions. */
  function Rows(launches: seq<Launch>, text: Status -> string, color: Status -> string): (rows: seq<Row>)
    ensures |rows| == |launches|
    ensures forall i :: 0 <= i < |rows| ==>
              rows[i].no == i + 1 && rows[i].launch == launches[i]
    ensures forall i :: 0 <= i < |rows| ==>
              rows[i].statusText == text(launches[i].success) &&
              rows[i].statusColor == color(launches[i].success)
  {
    seq(|launches|, i requires 0 <= i < |launches| =>
      Row(i + 1, launches[i], text(launches[i].success), color(launches[i].success)))
  }
}

/**
 * The query-string handling of getOrdens (backend/src/controllers/ordemController.ts):
 * the `status` parameter becomes a status filter, and `page`/`limit` become the
 * window of the listing.
 */
module OrderQueries {
  import opened Common
  import opened Store

  /** The `where.status` clause: absent, `{ in: names }`, or an exact value. */
  datatype StatusFilter = AnyStatus | StatusIn(names: seq<string>) | StatusIs(name: string)

  const ActiveNames: seq<string> := ["PENDENTE", "EM_ANDAMENTO"]

  /** `ACTIVE` stands for the two open statuses, a comma list for its pieces, anything
      else for itself; an empty or missing parameter sets no filter. */
  function ParseStatusFilter(status: Option<string>): StatusFilter {
    if !Truthy(status) then AnyStatus
    else if status.value == "ACTIVE" then StatusIn(ActiveNames)
    else if ',' in status.value then StatusIn(Split(status.value, ','))
    else StatusIs(status.value)
  }

  predicate StatusMatches(f: StatusFilter, s: OrdemStatus) {
    match f
    case AnyStatus => true
    case StatusIn(names) => OrdemStatusName(s) in names
    case StatusIs(name) => OrdemStatusName(s) == name
  }

  /** Every name the filter compares against is a value of the status enum. */
  predicate FilterNamesValid(f: StatusFilter) {
    match f
    case AnyStatus => true
    case StatusIn(names) => forall i :: 0 <= i < |names| ==> ParseOrdemStatus(names[i]).Some?
    case StatusIs(name) => ParseOrdemStatus(name).Some?
  }

  /** The filter as the ORM takes it: a name outside the enum, alone or in a comma list,
      makes the query throw, and getOrdens answers 500. */
  function StatusWhere(status: Option<string>): (r: Result<StatusFilter>)
    ensures r.Err? <==> !FilterNamesValid(ParseStatusFilter(status))
    ensures r.Err? ==> r.failure == ServerError
    ensures r.Ok? ==> r.value == ParseStatusFilter(status)
  {
    var f := ParseStatusFilter(status);
    if FilterNamesValid(f) then Ok(f) else Err(ServerError)
  }

  /** A single name that is not a status, such as `FOO`, fails the listing. */
  lemma UnknownStatusNameFails(name: string)
    requires name != "" && name != "ACTIVE" && ',' !in name
    requires forall t: OrdemStatus :: OrdemStatusName(t) != name
    ensures StatusWhere(Some(name)) == Err(ServerError)
  {
    assert ParseStatusFilter(Some(name)) == StatusIs(name);
  }

  /** The filters the front end sends are accepted: none, ACTIVE, and one status name. */
  lemma KnownStatusFiltersAccepted(t: OrdemStatus)
    ensures StatusWhere(None) == Ok(AnyStatus)
    ensures StatusWhere(Some("ACTIVE")) == Ok(StatusIn(ActiveNames))
    ensures StatusWhere(Some(OrdemStatusName(t))) == Ok(StatusIs(OrdemStatusName(t)))
  {
    PlainStatusName(t);
    ParseOrdemStatusName(t);
    assert ParseOrdemStatus(ActiveNames[0]).Some? && ParseOrdemStatus(ActiveNames[1]).Some?;
  }

  /** Without a status parameter every order is listed. */
  lemma NoStatusMatchesAll(status: Option<string>, s: OrdemStatus)
    requires !Truthy(status)
    ensures StatusMatches(ParseStatusFilter(status), s)
  {
  }

  /** `ACTIVE` selects exactly the PENDENTE and EM_ANDAMENTO orders. */
  lemma ActiveFilterIsActive(s: OrdemStatus)
    ensures StatusMatches(ParseStatusFilter(Some("ACTIVE")), s) <==> Active(s)
  {
  }

  /** A comma list of two or more names selects exactly the orders whose status is one of them. */
  lemma CommaListFilter(names: seq<string>, s: OrdemStatus)
    requires |names| >= 2
    requires forall i :: 0 <= i < |names| ==> ',' !in names[i]
    ensures ParseStatusFilter(Some(Join(names, ','))) == StatusIn(names)
    ensures StatusMatches(ParseStatusFilter(Some(Join(names, ','))), s) <==> OrdemStatusName(s) in names
  {
    SplitJoin(names, ',');
    var joined := Join(names, ',');
    assert joined != "ACTIVE" by {
      assert ',' !in "ACTIVE";
    }
  }

  /** The name of one status selects exactly the orders in that status. */
  lemma ExactFilter(t: OrdemStatus, s: OrdemStatus)
    ensures StatusMatches(ParseStatusFilter(Some(OrdemStatusName(t))), s) <==> s == t
  {
    PlainStatusName(t);
    assert ParseStatusFilter(Some(OrdemStatusName(t))) == StatusIs(OrdemStatusName(t));
    if OrdemStatusName(s) == OrdemStatusName(t) {
      ParseOrdemStatusName(s);
      ParseOrdemStatusName(t);
    }
  }

  /** A status name is neither the word ACTIVE nor a comma list. */
  lemma PlainStatusName(t: OrdemStatus)
    ensures |OrdemStatusName(t)| > 0 && OrdemStatusName(t) != "ACTIVE" && ',' !in OrdemStatusName(t)
  {
    match t
    case Pendente => assert OrdemStatusName(t)[0] == 'P';
    case EmAndamento => assert OrdemStatusName(t)[0] == 'E';
    case Finalizado => assert OrdemStatusName(t)[0] == 'F';
    case Cancelado => assert OrdemStatusName(t)[1] == 'A';
  }

  /** `Number(q)`: a missing parameter is NaN (None), a given one is read as a numeral. */
  function NumberOf(q: Option<string>): (r: Option<int>)
    ensures q.None? ==> r.None?
    ensures q.Some? ==> r == NumeralValue(q.value)
  {
    if q.None? then None else NumeralValue(q.value)
  }

  /** `Number(q) || fallback`: NaN and 0 are falsy and give the fallback. */
  function NumberOr(q: Option<string>, fallback: int): int {
    match NumberOf(q)
    case None => fallback
    case Some(n) => if n == 0 then fallback else n
  }

  function Page(q: Option<string>): int { NumberOr(q, 1) }

  function Limit(q: Option<string>): int { NumberOr(q, 10) }

  /** How many orders come before the page: `(page - 1) * limit`. */
  function Skip(page: int, limit: int): int { (page - 1) * limit }

  /** The listing defaults to the first ten orders. */
  lemma PaginationDefaults(pageQuery: Option<string>, limitQuery: Option<string>)
    requires NumberOf(pageQuery) == None || NumberOf(pageQuery) == Some(0)
    requires NumberOf(limitQuery) == None || NumberOf(limitQuery) == Some(0)
    ensures Page(pageQuery) == 1 && Limit(limitQuery) == 10
    ensures Skip(Page(pageQuery), Limit(limitQuery)) == 0
  {
  }

  /** A positive number written out in decimal is read back as that page and limit. */
  lemma PageOfNumeral(n: nat)
    requires n > 0
    ensures Page(Some(NatToString(n))) == n && Limit(Some(NatToString(n))) == n
  {
    DigitsValueOfNatToString(n);
  }

  /** A negative page is truthy and passes through, so its skip is negative. */
  lemma NegativePageSkipsBackwards(digits: string, limit: int)
    requires |digits| >= 1 && AllDigits(digits) && DigitsValue(digits) > 0
    requires limit >= 1
    ensures Page(Some("-" + digits)) == -(DigitsValue(digits) as int)
    ensures Skip(Page(Some("-" + digits)), limit) < 0
  {
    var s := "-" + digits;
    assert s[1..] == digits;
    assert s[0] == '-';
    var p := -(DigitsValue(digits) as int);
    assert NumeralValue(s) == Some(p);
    NegativeSkip(p, limit);
  }

  /** Before a page below 1 lie fewer than no orders. */
  lemma NegativeSkip(page: int, limit: int)
    requires page < 1 && limit >= 1
    ensures Skip(page, limit) < 0
  {
    assert (page - 1) * limit == (page - 1) + (page - 1) * (limit - 1);
    assert (page - 1) * (limit - 1) <= 0;
  }
}

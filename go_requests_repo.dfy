/** The request table mapping of the Go rewrite
    (golang_app/internal/adapters/secondaryadapters/dbadapter/requests_repo.go).
    A row flattens the recipient into two columns; the readers turn the rows
    a query returns into domain requests one by one. The database is a
    sequence of rows; a query returns the matching rows in table order. */
module GoRequestsRepo {
  import opened GoDomain

  /** `RequestDTO`: one row of the requests table. */
  datatype RequestDTO = RequestDTO(
    id: string, title: string, description: string, acceptedById: string,
    createdById: string, recipientId: string, recipientType: string,
    status: string, rejectionReason: string, createdAt: int, updatedAt: int)

  /** `RequestDTO.ToDomain`: the recipient is rebuilt from its two columns. */
  function ToDomain(dto: RequestDTO): (r: Request)
    ensures r.recipient == Recipient(dto.recipientId, dto.recipientType)
    ensures r.id == dto.id && r.status == dto.status && r.createdById == dto.createdById
  {
    Request(dto.id, dto.title, dto.description, dto.acceptedById, dto.createdById,
            Recipient(dto.recipientId, dto.recipientType), dto.status,
            dto.rejectionReason, dto.createdAt, dto.updatedAt)
  }

  /** `NewRequestDTO`: the row a request is stored as; reading it back gives
      the same request. */
  function NewRequestDTO(r: Request): (dto: RequestDTO)
    ensures ToDomain(dto) == r
    ensures dto.recipientId == r.recipient.id && dto.recipientType == r.recipient.recipientType
  {
    RequestDTO(r.id, r.title, r.description, r.acceptedById, r.createdById,
               r.recipient.id, r.recipient.recipientType, r.status,
               r.rejectionReason, r.createdAt, r.updatedAt)
  }

  /** Every row is the row of the request it reads as. */
  lemma RowRoundTrip(dto: RequestDTO)
    ensures NewRequestDTO(ToDomain(dto)) == dto
  {
  }

  /** The `Where` clauses of `FindByRecipientAndStatuses`: the recipient
      always, the status only when some statuses are given. */
  predicate MatchesRecipientAndStatuses(dto: RequestDTO, recipientId: string, recipientType: RecipientType,
                                        statuses: seq<RequestStatus>)
  {
    dto.recipientId == recipientId && dto.recipientType == recipientType &&
    (|statuses| > 0 ==> dto.status in statuses)
  }

  /** The rows of `table` the query returns, in table order. */
  function SelectByRecipientAndStatuses(table: seq<RequestDTO>, recipientId: string, recipientType: RecipientType,
                                        statuses: seq<RequestStatus>): (rows: seq<RequestDTO>)
    ensures |rows| <= |table|
    ensures forall i :: 0 <= i < |rows| ==> MatchesRecipientAndStatuses(rows[i], recipientId, recipientType, statuses)
  {
    if table == [] then []
    else
      var rest := SelectByRecipientAndStatuses(table[1..], recipientId, recipientType, statuses);
      if MatchesRecipientAndStatuses(table[0], recipientId, recipientType, statuses) then [table[0]] + rest else rest
  }

  /** A row is returned exactly when it is in the table and matches. */
  lemma {:induction false} SelectedRows(table: seq<RequestDTO>, recipientId: string, recipientType: RecipientType,
                                        statuses: seq<RequestStatus>, dto: RequestDTO)
    ensures dto in SelectByRecipientAndStatuses(table, recipientId, recipientType, statuses) <==>
      dto in table && MatchesRecipientAndStatuses(dto, recipientId, recipientType, statuses)
  {
    if table != [] {
      SelectedRows(table[1..], recipientId, recipientType, statuses, dto);
      assert table == [table[0]] + table[1..];
    }
  }

  /** With no statuses given, the query filters by recipient alone. */
  lemma {:induction false} NoStatusesFilterByRecipientOnly(table: seq<RequestDTO>, recipientId: string,
                                                           recipientType: RecipientType)
    ensures forall dto :: dto in SelectByRecipientAndStatuses(table, recipientId, recipientType, []) <==>
      dto in table && dto.recipientId == recipientId && dto.recipientType == recipientType
  {
    forall dto
      ensures dto in SelectByRecipientAndStatuses(table, recipientId, recipientType, []) <==>
        dto in table && dto.recipientId == recipientId && dto.recipientType == recipientType
    {
      SelectedRows(table, recipientId, recipientType, [], dto);
    }
  }

  /** The loop shared by the `Find*` readers: a slice of the rows' length,
      filled index by index with each row's request. */
  method RowsToDomain(dtos: seq<RequestDTO>) returns (requests: array<Request>)
    ensures fresh(requests) && requests.Length == |dtos|
    ensures forall i :: 0 <= i < |dtos| ==> requests[i] == ToDomain(dtos[i])
  {
    requests := new Request[|dtos|];
    for i := 0 to |dtos|
      invariant forall j :: 0 <= j < i ==> requests[j] == ToDomain(dtos[j])
    {
      requests[i] := ToDomain(dtos[i]);
    }
  }

  /** The status list converted to strings for the `IN` clause, index by index. */
  method StatusStrings(statuses: seq<RequestStatus>) returns (strings: array<string>)
    ensures fresh(strings) && strings[..] == statuses
  {
    strings := new string[|statuses|];
    for i := 0 to |statuses|
      invariant strings[..i] == statuses[..i]
    {
      strings[i] := statuses[i];
    }
  }

  /** `FindByRecipientAndStatuses` against a table. */
  method FindByRecipientAndStatuses(table: seq<RequestDTO>, recipientId: string, recipientType: RecipientType,
                                    statuses: seq<RequestStatus>) returns (requests: array<Request>)
    ensures fresh(requests)
    ensures requests[..] == ToDomainAll(SelectByRecipientAndStatuses(table, recipientId, recipientType, statuses))
  {
    var rows: seq<RequestDTO>;
    if |statuses| > 0 {
      var strings := StatusStrings(statuses);
      rows := SelectByRecipientAndStatuses(table, recipientId, recipientType, strings[..]);
    } else {
      rows := SelectByRecipientAndStatuses(table, recipientId, recipientType, []);
    }
    requests := RowsToDomain(rows);
  }

  function ToDomainAll(dtos: seq<RequestDTO>): (rs: seq<Request>)
    ensures |rs| == |dtos| && forall i :: 0 <= i < |dtos| ==> rs[i] == ToDomain(dtos[i])
  {
    seq(|dtos|, i requires 0 <= i < |dtos| => ToDomain(dtos[i]))
  }

  /** Each request the status query returns is addressed to the recipient
      and, when statuses were given, has one of them. */
  lemma FoundRequestsMatch(table: seq<RequestDTO>, recipientId: string, recipientType: RecipientType,
                           statuses: seq<RequestStatus>, i: nat)
    requires i < |SelectByRecipientAndStatuses(table, recipientId, recipientType, statuses)|
    ensures var r := ToDomainAll(SelectByRecipientAndStatuses(table, recipientId, recipientType, statuses))[i];
      r.recipient == Recipient(recipientId, recipientType) && (|statuses| > 0 ==> r.status in statuses)
  {
  }
}

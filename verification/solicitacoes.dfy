/** `POST /api/solicitacoes`: a customer's purchase request, checked and
    turned into the row inserted into the requests table. The insert and
    its 201/500 answer are not modelled. */
module Solicitacoes {
  import opened Js

  /** `SolicitacaoInsert`: exactly these four fields. */
  datatype SolicitacaoInsert = SolicitacaoInsert(nome: Value, produto: Value, pagamento: Value, obs: Value)

  datatype PostOutcome =
    | Rejected(status: int, error: string)
    | InsertRequest(record: SolicitacaoInsert)

  const MissingFields: string := "Campos obrigatórios: nome, produto, pagamento"
  const Unexpected: string := "Erro ao processar solicitação"

  /** The route on a parsed JSON body; reading a field of `null` throws,
      which the route answers with 500. */
  function Post(body: Value): (r: PostOutcome)
    ensures body.Null? || body.Undefined? ==> r == Rejected(500, Unexpected)
    ensures !(body.Null? || body.Undefined?) ==>
              (r.InsertRequest? <==> Truthy(Field(body, "nome")) && Truthy(Field(body, "produto")) && Truthy(Field(body, "pagamento")))
    ensures !(body.Null? || body.Undefined?) && r.Rejected? ==> r == Rejected(400, MissingFields)
    ensures r.InsertRequest? ==>
              && r.record.nome == Field(body, "nome")
              && r.record.produto == Field(body, "produto")
              && r.record.pagamento == Field(body, "pagamento")
              && (Truthy(Field(body, "obs")) ==> r.record.obs == Field(body, "obs"))
              && (!Truthy(Field(body, "obs")) ==> r.record.obs == Null)
  {
    if body.Null? || body.Undefined? then Rejected(500, Unexpected)
    else if !Truthy(Field(body, "nome")) || !Truthy(Field(body, "produto")) || !Truthy(Field(body, "pagamento")) then
      Rejected(400, MissingFields)
    else
      InsertRequest(SolicitacaoInsert(Field(body, "nome"), Field(body, "produto"), Field(body, "pagamento"),
                                      OrNull(Field(body, "obs"))))
  }

  /** Any field other than the four is dropped, and the notes never
      decide acceptance: two bodies that agree on the three required
      fields are both accepted or both rejected. */
  lemma NotesNeverReject(fields: map<string, Value>, obs: Value)
    ensures Post(Obj(fields)).InsertRequest? <==> Post(Obj(fields["obs" := obs])).InsertRequest?
    ensures Post(Obj(fields["obs" := obs])).InsertRequest? ==>
              Post(Obj(fields["obs" := obs])).record.obs == OrNull(obs)
  {
    assert Field(Obj(fields["obs" := obs]), "nome") == Field(Obj(fields), "nome");
    assert Field(Obj(fields["obs" := obs]), "produto") == Field(Obj(fields), "produto");
    assert Field(Obj(fields["obs" := obs]), "pagamento") == Field(Obj(fields), "pagamento");
  }
}

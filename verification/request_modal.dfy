/** The purchase-request dialog of the product page: its three fields,
    the validation that fills the error map, and the submit that posts
    the request and then records it in the local history. */
module RequestModal {
  import opened Text
  import opened Js
  import opened Wrappers
  import Storage
  import Solicitacoes
  import ProductCard

  const NameRequired: string := "Nome é obrigatório"
  const PaymentRequired: string := "Selecione um método de pagamento"

  /** The JSON body posted to the request route; empty notes are sent as
      `null`. */
  function RequestBody(nome: string, produtoNome: string, pagamento: string, observacoes: string): (r: Value)
    ensures r.Obj? && r.fields.Keys == {"nome", "produto", "pagamento", "obs"}
    ensures Field(r, "nome") == Str(nome) && Field(r, "produto") == Str(produtoNome)
    ensures Field(r, "pagamento") == Str(pagamento)
    ensures Field(r, "obs") == if observacoes == [] then Null else Str(observacoes)
  {
    Obj(map["nome" := Str(nome), "produto" := Str(produtoNome), "pagamento" := Str(pagamento),
            "obs" := if observacoes == [] then Null else Str(observacoes)])
  }

  /** The route on the dialog's body: it is accepted exactly when the
      name, the product name and the payment method are all non-empty,
      and the row then holds the three as sent and the notes or `null`. */
  lemma RouteOnRequestBody(nome: string, produtoNome: string, pagamento: string, observacoes: string)
    ensures var out := Solicitacoes.Post(RequestBody(nome, produtoNome, pagamento, observacoes));
            out.InsertRequest? <==> nome != [] && produtoNome != [] && pagamento != []
    ensures nome != [] && produtoNome != [] && pagamento != [] ==>
              Solicitacoes.Post(RequestBody(nome, produtoNome, pagamento, observacoes)).record ==
              Solicitacoes.SolicitacaoInsert(Str(nome), Str(produtoNome), Str(pagamento),
                                             if observacoes == [] then Null else Str(observacoes))
  {
  }

  /** What the dialog validated is what the route accepts: a name that is
      not blank and a chosen payment method always pass the route's
      check, and the row keeps the three values as typed, the product's
      full name, and the notes or `null`. */
  lemma ValidatedRequestAccepted(nome: string, fabricante: string, modelo: string, pagamento: string, observacoes: string)
    requires Trim(nome) != [] && pagamento != []
    ensures var out := Solicitacoes.Post(RequestBody(nome, ProductCard.FullName(fabricante, modelo), pagamento, observacoes));
            && out.InsertRequest?
            && out.record == Solicitacoes.SolicitacaoInsert(
                 Str(nome), Str(ProductCard.FullName(fabricante, modelo)), Str(pagamento),
                 if observacoes == [] then Null else Str(observacoes))
  {
    var produtoNome := ProductCard.FullName(fabricante, modelo);
    ProductCard.FullNameNonEmpty(fabricante, modelo);
    assert nome != [] by {
      assert |Trim(nome)| <= |nome|;
    }
    RouteOnRequestBody(nome, produtoNome, pagamento, observacoes);
  }

  /** The route is laxer than the dialog: a name of spaces, which the
      dialog refuses, is accepted by the route. */
  lemma BlankNameOnlyRefusedByDialog(produtoNome: string, pagamento: string)
    requires produtoNome != [] && pagamento != []
    ensures Trim(" ") == []
    ensures Solicitacoes.Post(RequestBody(" ", produtoNome, pagamento, "")).InsertRequest?
  {
    TrimEmptyIff(" ");
    RouteOnRequestBody(" ", produtoNome, pagamento, "");
  }

  /** The dialog's state. */
  class RequestForm {
    var nomeCliente: string
    var metodoPagamento: string
    var observacoes: string
    var errors: map<string, string>

    /** Every field empty, no errors. */
    constructor()
      ensures nomeCliente == [] && metodoPagamento == [] && observacoes == [] && errors == map[]
    {
      nomeCliente, metodoPagamento, observacoes := [], [], [];
      errors := map[];
    }

    /** `validate`: a blank name and a missing payment method each get
        their message; the notes are never checked. The form is valid
        exactly when the error map is empty. */
    method Validate() returns (ok: bool)
      modifies this
      ensures nomeCliente == old(nomeCliente) && metodoPagamento == old(metodoPagamento)
      ensures observacoes == old(observacoes)
      ensures errors.Keys <= {"nomeCliente", "metodoPagamento"}
      ensures "nomeCliente" in errors <==> Trim(nomeCliente) == []
      ensures "nomeCliente" in errors ==> errors["nomeCliente"] == NameRequired
      ensures "metodoPagamento" in errors <==> metodoPagamento == []
      ensures "metodoPagamento" in errors ==> errors["metodoPagamento"] == PaymentRequired
      ensures ok <==> Trim(nomeCliente) != [] && metodoPagamento != []
      ensures ok <==> errors == map[]
    {
      var newErrors: map<string, string> := map[];
      if Trim(nomeCliente) == [] {
        newErrors := newErrors["nomeCliente" := NameRequired];
      }
      if metodoPagamento == [] {
        newErrors := newErrors["metodoPagamento" := PaymentRequired];
      }
      errors := newErrors;
      ok := |newErrors| == 0;
    }

    /** `handleSubmit` for a product, given whether the route answered ok.
        The error map is always the one the validation sets. An invalid
        form sends nothing. A sent request that the route accepts is
        added to the local history under the given id and time, no other
        storage key changes, and the fields are cleared; otherwise the
        fields and the storage stay as they were. */
    method Submit(fabricante: string, modelo: string, produtoId: string, routeOk: bool,
                  history: Storage.LocalStorage, id: string, criadoEm: string) returns (sent: Option<Value>)
      requires history.Valid()
      modifies this, history
      ensures history.Valid()
      ensures sent.Some? <==> Trim(old(nomeCliente)) != [] && old(metodoPagamento) != []
      ensures errors.Keys <= {"nomeCliente", "metodoPagamento"}
      ensures "nomeCliente" in errors <==> Trim(old(nomeCliente)) == []
      ensures "nomeCliente" in errors ==> errors["nomeCliente"] == NameRequired
      ensures "metodoPagamento" in errors <==> old(metodoPagamento) == []
      ensures "metodoPagamento" in errors ==> errors["metodoPagamento"] == PaymentRequired
      ensures sent.Some? ==>
                sent.value == RequestBody(old(nomeCliente), ProductCard.FullName(fabricante, modelo),
                                          old(metodoPagamento), old(observacoes))
      ensures sent.Some? && routeOk ==>
                && history.GetSolicitacoes() ==
                     old(history.GetSolicitacoes()) +
                     [Storage.NewRecord(Storage.NewSolicitacao(produtoId, ProductCard.FullName(fabricante, modelo),
                                                               old(nomeCliente), old(metodoPagamento), old(observacoes)),
                                        id, criadoEm)]
                && history.items == old(history.items)[Storage.SolicitacoesKey := Storage.Requests(history.GetSolicitacoes())]
                && nomeCliente == [] && metodoPagamento == [] && observacoes == []
      ensures !(sent.Some? && routeOk) ==>
                && history.items == old(history.items)
                && nomeCliente == old(nomeCliente) && metodoPagamento == old(metodoPagamento)
                && observacoes == old(observacoes)
    {
      var ok := Validate();
      if !ok {
        return None;
      }
      var body := Send(fabricante, modelo, produtoId, routeOk, history, id, criadoEm);
      sent := Some(body);
    }

    /** The part of `handleSubmit` after a successful validation: the body
        posted, then, once the route has answered ok, the entry added to
        the local history (no other storage key changes) and the fields
        cleared. The error map is left
        as the validation set it. */
    method Send(fabricante: string, modelo: string, produtoId: string, routeOk: bool,
                history: Storage.LocalStorage, id: string, criadoEm: string) returns (body: Value)
      requires history.Valid()
      modifies this, history
      ensures history.Valid() && errors == old(errors)
      ensures body == RequestBody(old(nomeCliente), ProductCard.FullName(fabricante, modelo),
                                  old(metodoPagamento), old(observacoes))
      ensures routeOk ==>
                && history.GetSolicitacoes() ==
                     old(history.GetSolicitacoes()) +
                     [Storage.NewRecord(Storage.NewSolicitacao(produtoId, ProductCard.FullName(fabricante, modelo),
                                                               old(nomeCliente), old(metodoPagamento), old(observacoes)),
                                        id, criadoEm)]
                && history.items == old(history.items)[Storage.SolicitacoesKey := Storage.Requests(history.GetSolicitacoes())]
                && nomeCliente == [] && metodoPagamento == [] && observacoes == []
      ensures !routeOk ==>
                && history.items == old(history.items)
                && nomeCliente == old(nomeCliente) && metodoPagamento == old(metodoPagamento)
                && observacoes == old(observacoes)
    {
      var produtoNome := ProductCard.FullName(fabricante, modelo);
      body := RequestBody(nomeCliente, produtoNome, metodoPagamento, observacoes);
      if routeOk {
        var _ := history.AddSolicitacao(
          Storage.NewSolicitacao(produtoId, produtoNome, nomeCliente, metodoPagamento, observacoes), id, criadoEm);
        nomeCliente, metodoPagamento, observacoes := [], [], [];
      }
    }
  }
}

/**
 * The ticket list of app/tabs/chamados.tsx: the normalisation of the tickets the service
 * returns, the three filter lists and their query, the rule that decides between the
 * user's own tickets and all of them, and the load with its fallbacks.
 */
module Tickets {
  import opened Wrappers
  import opened Strings
  import opened Services

  // ----- normalizeTicket -----

  /** `TicketItem`. */
  datatype Ticket = Ticket(id: string, protocol: string, title: string, description: Option<string>,
                           createdAt: string, status: string, categoria: string, nivel: string, prioridade: string)

  /**
   * A raw ticket as the service sends it: the fields that are present and not null, by key.
   * A null ticket is `None`.
   */
  type RawTicket = Option<map<string, string>>

  const NO_VALUE: string := "—"
  const NO_TITLE: string := "(Sem título)"

  /** `raw?.Pascal ?? raw?.camel`. */
  function RawField(raw: RawTicket, pascal: string, camel: string): Option<string> {
    if raw.None? then None
    else if pascal in raw.value then Some(raw.value[pascal])
    else if camel in raw.value then Some(raw.value[camel])
    else None
  }

  /** `normalizeTicket`. */
  function NormalizeTicket(raw: RawTicket): Ticket {
    Ticket(
      RawField(raw, "Id", "id").GetOr(""),
      RawField(raw, "Protocol", "protocol").GetOr(NO_VALUE),
      RawField(raw, "Title", "title").GetOr(NO_TITLE),
      RawField(raw, "Description", "description"),
      RawField(raw, "CreatedAt", "createdAt").GetOr(""),
      RawField(raw, "Status", "status").GetOr(NO_VALUE),
      RawField(raw, "Categoria", "categoria").GetOr(NO_VALUE),
      RawField(raw, "Nivel", "nivel").GetOr(NO_VALUE),
      RawField(raw, "Prioridade", "prioridade").GetOr(NO_VALUE))
  }

  /** A ticket as the service sends it with PascalCase keys. */
  function PascalRaw(t: Ticket): map<string, string> {
    map["Id" := t.id, "Protocol" := t.protocol, "Title" := t.title, "CreatedAt" := t.createdAt,
        "Status" := t.status, "Categoria" := t.categoria, "Nivel" := t.nivel, "Prioridade" := t.prioridade]
    + (if t.description.Some? then map["Description" := t.description.value] else map[])
  }

  /** The same ticket with camelCase keys. */
  function CamelRaw(t: Ticket): map<string, string> {
    map["id" := t.id, "protocol" := t.protocol, "title" := t.title, "createdAt" := t.createdAt,
        "status" := t.status, "categoria" := t.categoria, "nivel" := t.nivel, "prioridade" := t.prioridade]
    + (if t.description.Some? then map["description" := t.description.value] else map[])
  }

  /** A ticket sent with PascalCase keys is read back unchanged. */
  lemma NormalizeReadsPascalCase(t: Ticket)
    ensures NormalizeTicket(Some(PascalRaw(t))) == t
  {
  }

  /** A ticket sent with camelCase keys is read back unchanged. */
  lemma NormalizeReadsCamelCase(t: Ticket)
    ensures NormalizeTicket(Some(CamelRaw(t))) == t
  {
    CamelLacksPascal(t);
  }

  lemma CamelLacksPascal(t: Ticket)
    ensures var m := CamelRaw(t);
      && "Id" !in m && "Protocol" !in m && "Title" !in m && "Description" !in m && "CreatedAt" !in m
      && "Status" !in m && "Categoria" !in m && "Nivel" !in m && "Prioridade" !in m
  {
  }

  /** When both spellings are present, the PascalCase one wins. */
  lemma NormalizePrefersPascalCase(t: Ticket, u: Ticket)
    requires t.description.Some?
    ensures NormalizeTicket(Some(CamelRaw(u) + PascalRaw(t))) == t
  {
  }

  /** A null ticket, or one with neither spelling of any key, gets every default. */
  lemma NormalizeDefaults(raw: RawTicket)
    requires raw.None? || raw.value.Keys == {}
    ensures NormalizeTicket(raw) == Ticket("", NO_VALUE, NO_TITLE, None, "", NO_VALUE, NO_VALUE, NO_VALUE, NO_VALUE)
  {
  }

  // ----- priority colours -----

  const RED: string := "#DC2626"
  const YELLOW: string := "#FBBF24"
  const GREEN: string := "#10B981"
  const GREY: string := "#6B7280"

  /** `getPrioridadeCor`. */
  function PrioridadeCor(prioridade: string): (r: string)
    ensures r == RED <==> prioridade == "Critica" || prioridade == "Alta"
    ensures r == YELLOW <==> prioridade == "Media"
    ensures r == GREEN <==> prioridade == "Baixa"
    ensures r == GREY <==> prioridade !in {"Critica", "Alta", "Media", "Baixa"}
  {
    match prioridade
    case "Critica" => RED
    case "Alta" => RED
    case "Media" => YELLOW
    case "Baixa" => GREEN
    case _ => GREY
  }

  // ----- filters -----

  /** `list.filter((i) => i !== item)`. */
  function Without(list: seq<string>, item: string): (r: seq<string>)
    ensures item !in r
    ensures forall x :: x != item ==> (x in r <==> x in list)
    ensures item !in list ==> r == list
    decreases |list|
  {
    if |list| == 0 then []
    else if list[0] == item then Without(list[1..], item)
    else [list[0]] + Without(list[1..], item)
  }

  /** `toggleItem`: removes the item when it is selected, appends it when it is not. */
  function ToggleItem(item: string, list: seq<string>): (r: seq<string>)
    ensures item in r <==> item !in list
    ensures forall x :: x != item ==> (x in r <==> x in list)
    ensures item !in list ==> r == list + [item]
  {
    if item in list then Without(list, item) else list + [item]
  }

  /** Toggling an unselected item twice gives the list back. */
  lemma ToggleTwice(item: string, list: seq<string>)
    requires item !in list
    ensures ToggleItem(item, ToggleItem(item, list)) == list
  {
    WithoutLast(list, item);
  }

  lemma {:induction false} WithoutLast(list: seq<string>, item: string)
    requires item !in list
    ensures Without(list + [item], item) == list
    decreases |list|
  {
    if |list| == 0 {
      assert Without([item][1..], item) == [];
    } else {
      assert (list + [item])[1..] == list[1..] + [item];
      WithoutLast(list[1..], item);
    }
  }

  const PAGE: nat := 1
  const PAGE_SIZE: nat := 20

  /** The page entries carry none of the filter keys. */
  lemma NoFilterYet(page: string, pageSize: string)
    ensures var q := [("page", page), ("pageSize", pageSize)];
      Lookup(q, "status") == None && Lookup(q, "categoria") == None && Lookup(q, "nivel") == None
  {
    var q := [("page", page), ("pageSize", pageSize)];
    assert q[0].0 == "page" && q[1].0 == "pageSize";
  }

  /** `query`, built by one `p.set` after another. */
  method BuildQuery(page: nat, pageSize: nat, status: seq<string>, categoria: seq<string>, nivel: seq<string>)
    returns (q: Params)
    ensures |q| >= 2 && q[0] == ("page", NatToString(page)) && q[1] == ("pageSize", NatToString(pageSize))
    ensures Lookup(q, "status") == FirstSelected(status)
    ensures Lookup(q, "categoria") == FirstSelected(categoria)
    ensures Lookup(q, "nivel") == FirstSelected(nivel)
  {
    q := [("page", NatToString(page)), ("pageSize", NatToString(pageSize))];
    NoFilterYet(NatToString(page), NatToString(pageSize));
    ghost var base := q;
    q := SetSelections(q, status, categoria, nivel);
    assert q[..2] == base;
  }

  // ----- whose tickets -----

  /** What `/auth/me` answers that the screen reads: the roles, when present. */
  datatype Profile = Profile(roles: Option<seq<string>>)

  /** `isAnalyst`: some non-empty role other than "user", ignoring case. */
  predicate IsAnalyst(roles: seq<string>) {
    exists i :: 0 <= i < |roles| && roles[i] != "" && Lower(roles[i]) != "user"
  }

  /** `preferMine` once the profile call settles; a failed or empty answer shows the user's own tickets. */
  function PreferMineFor(profile: Response<Option<Profile>>): bool {
    match profile
    case Failed(_) => true
    case Succeeded(p) => !IsAnalyst(if p.Some? then p.value.roles.GetOr([]) else [])
  }

  /** Users, whatever the case of their role, see their own tickets; "User" and "USER" count as "user". */
  lemma UsersSeeTheirOwn(roles: seq<string>)
    requires forall i :: 0 <= i < |roles| ==> roles[i] == "" || Lower(roles[i]) == "user"
    ensures PreferMineFor(Succeeded(Some(Profile(Some(roles))))) == true
  {
  }

  lemma AnalystsSeeAll(roles: seq<string>, k: nat)
    requires k < |roles| && roles[k] != "" && Lower(roles[k]) != "user"
    ensures PreferMineFor(Succeeded(Some(Profile(Some(roles))))) == false
  {
  }

  // ----- the load -----

  /** The screen's load state. `preferMine` is `None` until the profile call settles. */
  datatype ListState = ListState(preferMine: Option<bool>, items: seq<Ticket>, error: Option<string>, loading: bool)

  /** What the list endpoint answers: the body's `items`, when present. */
  type ListReply = Response<Option<seq<RawTicket>>>

  const LOAD_FAILED: string := "Falha ao carregar os chamados"
  const MINE_ENDPOINT: string := "/tickets/mine"
  const ALL_ENDPOINT: string := "/tickets"

  function Endpoint(preferMine: bool): string {
    if preferMine then MINE_ENDPOINT else ALL_ENDPOINT
  }

  function NormalizeAll(raws: seq<RawTicket>): (r: seq<Ticket>)
    ensures |r| == |raws| && forall i :: 0 <= i < |raws| ==> r[i] == NormalizeTicket(raws[i])
  {
    seq(|raws|, i requires 0 <= i < |raws| => NormalizeTicket(raws[i]))
  }

  /**
   * `carregar` for the query `query`: the request it makes (endpoint and query), if any, and
   * the state it leaves once `reply` arrives.
   */
  function Load(st: ListState, query: Params, reply: ListReply): (ListState, Option<(string, Params)>) {
    if st.preferMine.None? then (st, None)
    else
      var mine := st.preferMine.value;
      var request := Some((Endpoint(mine), query));
      match reply
      case Succeeded(items) => (st.(items := NormalizeAll(items.GetOr([])), error := None, loading := false), request)
      case Failed(e) =>
        if !mine && e.status == Some(403) then (st.(preferMine := Some(true), error := None, loading := false), request)
        else (st.(error := Some(ErrorText(e, LOAD_FAILED)), loading := false), request)
  }

  /** Nothing is requested, and nothing changes, before the profile call settles. */
  lemma NoLoadBeforeProfile(st: ListState, query: Params, reply: ListReply)
    requires st.preferMine.None?
    ensures Load(st, query, reply) == (st, None)
  {
  }

  /** The request goes to `/tickets/mine` exactly when the user's own tickets are preferred. */
  lemma EndpointFollowsPreference(st: ListState, query: Params, reply: ListReply)
    requires st.preferMine.Some?
    ensures var request := Load(st, query, reply).1;
      request.Some? && request.value.1 == query
      && (request.value.0 == MINE_ENDPOINT <==> st.preferMine.value)
  {
  }

  /** A successful load shows the normalised tickets, one per item, and clears the error. */
  lemma LoadShowsTickets(st: ListState, query: Params, items: Option<seq<RawTicket>>)
    requires st.preferMine.Some?
    ensures var t := Load(st, query, Succeeded(items)).0;
      && |t.items| == |items.GetOr([])| && t.error.None? && !t.loading && t.preferMine == st.preferMine
      && forall i :: 0 <= i < |t.items| ==> t.items[i] == NormalizeTicket(items.GetOr([])[i])
  {
  }

  /**
   * A rejection that carries status 403 on `/tickets` falls back to the user's own tickets
   * without an error; every other failure shows an error, never blank, and keeps the list.
   */
  lemma LoadFailure(st: ListState, query: Params, e: ServiceError)
    requires st.preferMine.Some?
    ensures var t := Load(st, query, Failed(e)).0;
      && !t.loading
      && (!st.preferMine.value && e.status == Some(403) ==> t.preferMine == Some(true) && t.error.None?)
      && (!(!st.preferMine.value && e.status == Some(403)) ==>
            t.preferMine == st.preferMine && t.items == st.items
            && t.error == Some(ErrorText(e, LOAD_FAILED)) && t.error.value != "")
  {
  }

  // ----- the status a rejection carries -----

  /**
   * The error `getJson` rejects with on an HTTP error status, as `ensureOk` (src/services/api.ts)
   * builds it: a plain `Error` whose message is "HTTP <status>" and the body's text; it has no
   * `status` property.
   */
  function HttpError(status: int, detail: Option<string>): ServiceError {
    ServiceError(None, None, Some("HTTP " + IntToString(status) + (if detail.Some? then ": " + detail.value else "")))
  }

  /** As written, a 403 on `/tickets` is shown as an error and never switches to `/tickets/mine`. */
  lemma ForbiddenIsShownAsError(st: ListState, query: Params, detail: Option<string>)
    requires st.preferMine == Some(false)
    ensures var t := Load(st, query, Failed(HttpError(403, detail))).0;
      t.preferMine == Some(false) && t.error == HttpError(403, detail).message
  {
  }

  /** The same error with its status attached, which the fallback in `carregar` reads. */
  function HttpErrorWithStatus(status: int, detail: Option<string>): ServiceError {
    HttpError(status, detail).(status := Some(status))
  }

  /** With the status attached, a 403 on `/tickets` switches to `/tickets/mine` without an error. */
  lemma ForbiddenSwitchesToMine(st: ListState, query: Params, detail: Option<string>, next: ListReply)
    requires st.preferMine == Some(false)
    ensures var t := Load(st, query, Failed(HttpErrorWithStatus(403, detail))).0;
      && t.preferMine == Some(true) && t.error.None?
      && Load(t, query, next).1 == Some((MINE_ENDPOINT, query))
  {
  }

  /** The three filter lists the dialog edits. */
  datatype Filter = StatusFilter | CategoriaFilter | NivelFilter

  /** The ticket screen: its selections and load state, updated in place. */
  class TicketsScreen {
    var statusSel: seq<string>
    var categoriaSel: seq<string>
    var nivelSel: seq<string>
    var preferMine: Option<bool>
    var items: seq<Ticket>
    var error: Option<string>
    var loading: bool

    function State(): ListState
      reads this
    {
      ListState(preferMine, items, error, loading)
    }

    constructor ()
      ensures statusSel == [] && categoriaSel == [] && nivelSel == []
      ensures State() == ListState(None, [], None, false)
    {
      statusSel, categoriaSel, nivelSel := [], [], [];
      preferMine, items, error, loading := None, [], None, false;
    }

    /** The mount effect: `preferMine` from the profile call. */
    method ResolvePreference(profile: Response<Option<Profile>>)
      modifies this
      ensures State() == old(State()).(preferMine := Some(PreferMineFor(profile)))
      ensures statusSel == old(statusSel) && categoriaSel == old(categoriaSel) && nivelSel == old(nivelSel)
    {
      preferMine := Some(PreferMineFor(profile));
    }

    /** `toggleItem` on one of the filter lists. */
    method Toggle(filter: Filter, item: string)
      modifies this
      ensures statusSel == (if filter == StatusFilter then ToggleItem(item, old(statusSel)) else old(statusSel))
      ensures categoriaSel == (if filter == CategoriaFilter then ToggleItem(item, old(categoriaSel)) else old(categoriaSel))
      ensures nivelSel == (if filter == NivelFilter then ToggleItem(item, old(nivelSel)) else old(nivelSel))
      ensures State() == old(State())
    {
      match filter
      case StatusFilter => statusSel := ToggleItem(item, statusSel);
      case CategoriaFilter => categoriaSel := ToggleItem(item, categoriaSel);
      case NivelFilter => nivelSel := ToggleItem(item, nivelSel);
    }

    /** `limparFiltros`. */
    method LimparFiltros()
      modifies this
      ensures statusSel == [] && categoriaSel == [] && nivelSel == []
      ensures State() == old(State())
    {
      statusSel := [];
      categoriaSel := [];
      nivelSel := [];
    }

    /** The current `query`. */
    method Query() returns (q: Params)
      ensures Lookup(q, "status") == FirstSelected(statusSel)
      ensures Lookup(q, "categoria") == FirstSelected(categoriaSel)
      ensures Lookup(q, "nivel") == FirstSelected(nivelSel)
      ensures |q| >= 2 && q[0] == ("page", NatToString(PAGE)) && q[1] == ("pageSize", NatToString(PAGE_SIZE))
    {
      q := BuildQuery(PAGE, PAGE_SIZE, statusSel, categoriaSel, nivelSel);
    }

    /** `carregar` with the current `query`; returns the request made. */
    method Carregar(query: Params, reply: ListReply) returns (request: Option<(string, Params)>)
      modifies this
      ensures (State(), request) == Load(old(State()), query, reply)
      ensures statusSel == old(statusSel) && categoriaSel == old(categoriaSel) && nivelSel == old(nivelSel)
    {
      if preferMine.None? {
        return None;
      }
      loading := true;
      error := None;
      var endpoint := Endpoint(preferMine.value);
      request := Some((endpoint, query));
      match reply {
        case Succeeded(raws) =>
          items := NormalizeAll(raws.GetOr([]));
        case Failed(e) =>
          if !preferMine.value && e.status == Some(403) {
            preferMine := Some(true);
            loading := false;
            return;
          }
          error := Some(ErrorText(e, LOAD_FAILED));
      }
      loading := false;
    }
  }
}

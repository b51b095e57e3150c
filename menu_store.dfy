/** The `useMenuItems` hook: the catalogue list the screens show, kept in step with
    the `menu_items` table. Each backend call is a parameter standing for its result. */
module MenuStore {
  import opened Wrappers
  import Seqs
  import Validation

  /** A row of the `menu_items` table. */
  datatype MenuItem = MenuItem(
    id: string,
    name: string,
    description: string,
    price: real,
    category: string,
    imageUrl: Option<string>,
    isPopular: bool,
    isAvailable: bool,
    preparationTime: real)

  /** The fields an update sends; an absent field is left as the table has it. */
  datatype MenuItemPatch = MenuItemPatch(
    name: Option<string>,
    description: Option<string>,
    price: Option<real>,
    category: Option<string>,
    preparationTime: Option<real>,
    isPopular: Option<bool>,
    isAvailable: Option<bool>,
    imageUrl: Option<string>)

  /** A single-row insert or update: the row the table returns, or an error. */
  datatype RowResult = Row(row: MenuItem) | DbError

  /** The list query: its data (which may be `null`), or an error. */
  datatype QueryResult = Rows(data: Option<seq<MenuItem>>) | QueryError

  /** What add, update and delete return to their caller. */
  datatype MutationReply =
    | Saved(data: Option<MenuItem>)
    | Rejected(message: string)   // a validation error: the first rule the input broke
    | Failed                      // the backend reported an error

  predicate IsSuccess(r: MutationReply) {
    r.Saved?
  }

  /** The list and the reply after one operation. */
  datatype Step = Step(items: seq<MenuItem>, reply: MutationReply)

  /** Every field of a submitted form, as an update sends it. */
  function PatchOf(m: Validation.MenuItemInput): MenuItemPatch {
    MenuItemPatch(Some(m.name), m.description, Some(m.price), Some(m.category),
                  Some(m.preparationTime), m.isPopular, m.isAvailable, m.imageUrl)
  }

  /** The update `toggleAvailability` sends: the negated flag and nothing else. */
  function AvailabilityPatch(currentStatus: bool): (p: MenuItemPatch)
    ensures p.isAvailable == Some(!currentStatus)
    ensures p.(isAvailable := None) == MenuItemPatch(None, None, None, None, None, None, None, None)
  {
    MenuItemPatch(None, None, None, None, None, None, Some(!currentStatus), None)
  }

  function ReplaceById(items: seq<MenuItem>, id: string, row: MenuItem): (r: seq<MenuItem>)
    ensures |r| == |items|
    ensures forall i :: 0 <= i < |items| ==> r[i] == if items[i].id == id then row else items[i]
  {
    Seqs.MapWhere(items, (m: MenuItem) => m.id == id, (_: MenuItem) => row)
  }

  function RemoveById(items: seq<MenuItem>, id: string): (r: seq<MenuItem>)
    ensures forall i :: 0 <= i < |r| ==> r[i].id != id && r[i] in items
    ensures forall i :: 0 <= i < |items| && items[i].id != id ==> items[i] in r
  {
    Seqs.Filter(items, (m: MenuItem) => m.id != id)
  }

  /** `addMenuItem`: validate, insert the validated item, append the row the table returns. */
  function AddStep(items: seq<MenuItem>, input: Validation.MenuItemInput, isUrl: string -> bool,
                   insert: Validation.ValidItem -> RowResult): (s: Step)
    ensures IsSuccess(s.reply) <==> (Validation.MenuItemAcceptable(input, isUrl)
      && insert(Validation.ParseMenuItem(input, isUrl).value).Row?)
    ensures IsSuccess(s.reply) ==> (s.reply.data.Some? && s.items == items + [s.reply.data.value]
      && s.reply.data.value == insert(Validation.ParseMenuItem(input, isUrl).value).row)
    ensures !IsSuccess(s.reply) ==> s.items == items
    ensures !Validation.MenuItemAcceptable(input, isUrl) ==>
      s.reply == Rejected(Validation.ParseMenuItem(input, isUrl).error)
    ensures Validation.MenuItemAcceptable(input, isUrl) && insert(Validation.ParseMenuItem(input, isUrl).value).DbError? ==>
      s.reply == Failed
  {
    match Validation.ParseMenuItem(input, isUrl)
    case Failure(message) => Step(items, Rejected(message))
    case Success(valid) =>
      match insert(valid)
      case DbError => Step(items, Failed)
      case Row(row) => Step(items + [row], Saved(Some(row)))
  }

  /** An invalid item never reaches the backend: the outcome is the same whatever the
      insert would have answered. */
  lemma InvalidItemIsNotInserted(items: seq<MenuItem>, input: Validation.MenuItemInput, isUrl: string -> bool,
                                 insert1: Validation.ValidItem -> RowResult,
                                 insert2: Validation.ValidItem -> RowResult)
    requires !Validation.MenuItemAcceptable(input, isUrl)
    ensures AddStep(items, input, isUrl, insert1) == AddStep(items, input, isUrl, insert2)
  {
  }

  /** `updateMenuItem`: no validation; every item with the id becomes the returned row. */
  function UpdateStep(items: seq<MenuItem>, id: string, patch: MenuItemPatch,
                      update: (string, MenuItemPatch) -> RowResult): (s: Step)
    ensures |s.items| == |items|
    ensures IsSuccess(s.reply) <==> update(id, patch).Row?
    ensures IsSuccess(s.reply) ==> (s.reply.data == Some(update(id, patch).row)
      && forall i :: 0 <= i < |items| ==>
        s.items[i] == if items[i].id == id then update(id, patch).row else items[i])
    ensures !IsSuccess(s.reply) ==> s.items == items && s.reply == Failed
  {
    match update(id, patch)
    case DbError => Step(items, Failed)
    case Row(row) => Step(ReplaceById(items, id, row), Saved(Some(row)))
  }

  /** An update of an id the list does not hold leaves the list as it was. */
  lemma UpdateOfUnknownId(items: seq<MenuItem>, id: string, patch: MenuItemPatch,
                          update: (string, MenuItemPatch) -> RowResult)
    requires forall i :: 0 <= i < |items| ==> items[i].id != id
    ensures UpdateStep(items, id, patch, update).items == items
  {
  }

  /** `deleteMenuItem`: `removed` says whether the delete succeeded. */
  function DeleteStep(items: seq<MenuItem>, id: string, removed: bool): (s: Step)
    ensures IsSuccess(s.reply) <==> removed
    ensures removed ==> s.reply == Saved(None)
    ensures !removed ==> s.items == items && s.reply == Failed
    ensures removed ==> forall i :: 0 <= i < |s.items| ==> s.items[i].id != id && s.items[i] in items
    ensures removed ==> forall i :: 0 <= i < |items| && items[i].id != id ==> items[i] in s.items
  {
    if removed then Step(RemoveById(items, id), Saved(None)) else Step(items, Failed)
  }

  /** A delete leaves exactly the items with another id, in their order and multiplicity. */
  lemma DeleteKeepsTheRest(items: seq<MenuItem>, id: string, m: MenuItem)
    ensures Seqs.IsSubsequence(DeleteStep(items, id, true).items, items)
    ensures multiset(DeleteStep(items, id, true).items)[m] == if m.id == id then 0 else multiset(items)[m]
  {
    Seqs.FilterIsSubsequence(items, (x: MenuItem) => x.id != id);
    Seqs.FilterMultiplicity(items, (x: MenuItem) => x.id != id, m);
  }

  /** The list after `fetchMenuItems`: the returned rows, `[]` for `null`, unchanged on error. */
  function FetchedItems(items: seq<MenuItem>, result: QueryResult): (r: seq<MenuItem>)
    ensures result.QueryError? ==> r == items
    ensures result.Rows? ==> r == if result.data.Some? then result.data.value else []
  {
    match result
    case QueryError => items
    case Rows(None) => []
    case Rows(Some(data)) => data
  }

  /** The hook's state: the list and the loading flag. */
  class MenuItemStore {
    var items: seq<MenuItem>
    var loading: bool

    /** `useState([])` and `useState(true)`: loading until the first fetch ends. */
    constructor ()
      ensures items == [] && loading
    {
      items := [];
      loading := true;
    }

    /** `fetchMenuItems`; the ghost `loadingDuringQuery` is the flag while the query runs. */
    method Fetch(result: QueryResult) returns (ghost loadingDuringQuery: bool)
      modifies this
      ensures loadingDuringQuery && !loading
      ensures items == FetchedItems(old(items), result)
    {
      loading := true;
      loadingDuringQuery := loading;
      match result {
        case QueryError =>
        case Rows(data) =>
          items := if data.Some? then data.value else [];
      }
      loading := false;
    }

    method Add(input: Validation.MenuItemInput, isUrl: string -> bool,
               insert: Validation.ValidItem -> RowResult) returns (r: MutationReply)
      modifies this`items
      ensures Step(items, r) == AddStep(old(items), input, isUrl, insert)
    {
      var parsed := Validation.ParseMenuItem(input, isUrl);
      if parsed.Failure? {
        return Rejected(parsed.error);
      }
      var result := insert(parsed.value);
      if result.DbError? {
        return Failed;
      }
      items := items + [result.row];
      r := Saved(Some(result.row));
    }

    method Update(id: string, patch: MenuItemPatch,
                  update: (string, MenuItemPatch) -> RowResult) returns (r: MutationReply)
      modifies this`items
      ensures Step(items, r) == UpdateStep(old(items), id, patch, update)
    {
      var result := update(id, patch);
      if result.DbError? {
        return Failed;
      }
      items := ReplaceById(items, id, result.row);
      r := Saved(Some(result.row));
    }

    method Delete(id: string, remove: string -> bool) returns (r: MutationReply)
      modifies this`items
      ensures Step(items, r) == DeleteStep(old(items), id, remove(id))
    {
      if !remove(id) {
        return Failed;
      }
      items := RemoveById(items, id);
      r := Saved(None);
    }

    /** `toggleAvailability`: an update whose only field is the negated flag. */
    method ToggleAvailability(id: string, currentStatus: bool,
                              update: (string, MenuItemPatch) -> RowResult) returns (r: MutationReply)
      modifies this`items
      ensures Step(items, r) == UpdateStep(old(items), id, AvailabilityPatch(currentStatus), update)
    {
      r := Update(id, AvailabilityPatch(currentStatus), update);
    }
  }
}

/** The dietary-settings page: it loads the signed-in user's settings row,
    creates an all-false row when none exists, flips one flag per click
    (updating the local copy first and rolling it back when the store
    refuses the update) and renders one button per flag. */
module Settings {
  import opened Remote

  /** The five dietary flags of a settings row. */
  datatype Field = Vegan | GlutenFree | Vegetarian | DairyFree | NutFree

  /** One `UserSettings` row. */
  datatype SettingsRow = SettingsRow(
    userId: string,
    vegan: bool,
    glutenFree: bool,
    vegetarian: bool,
    dairyFree: bool,
    nutFree: bool)

  /** `row[field]`. */
  function Get(row: SettingsRow, f: Field): (b: bool)
  {
    match f
    case Vegan => row.vegan
    case GlutenFree => row.glutenFree
    case Vegetarian => row.vegetarian
    case DairyFree => row.dairyFree
    case NutFree => row.nutFree
  }

  /** `{ ...row, [field]: v }`: field `f` becomes `v`, the owner and every
      other flag stay. */
  function Set(row: SettingsRow, f: Field, v: bool): (r: SettingsRow)
    ensures Get(r, f) == v
    ensures forall g :: g != f ==> Get(r, g) == Get(row, g)
    ensures r.userId == row.userId
  {
    match f
    case Vegan => row.(vegan := v)
    case GlutenFree => row.(glutenFree := v)
    case Vegetarian => row.(vegetarian := v)
    case DairyFree => row.(dairyFree := v)
    case NutFree => row.(nutFree := v)
  }

  /** Two rows with the same owner and the same flags are the same row. */
  lemma RowsEqual(a: SettingsRow, b: SettingsRow)
    requires a.userId == b.userId
    requires forall g :: Get(a, g) == Get(b, g)
    ensures a == b
  {
    assert Get(a, Vegan) == Get(b, Vegan);
    assert Get(a, GlutenFree) == Get(b, GlutenFree);
    assert Get(a, Vegetarian) == Get(b, Vegetarian);
    assert Get(a, DairyFree) == Get(b, DairyFree);
    assert Get(a, NutFree) == Get(b, NutFree);
  }

  /** The row a click on `f` produces: `f` negated, nothing else changed. */
  function Toggled(row: SettingsRow, f: Field): (r: SettingsRow)
    ensures Get(r, f) == !Get(row, f)
    ensures forall g :: g != f ==> Get(r, g) == Get(row, g)
    ensures r.userId == row.userId
  {
    Set(row, f, !Get(row, f))
  }

  /** Toggling the same flag twice gives back the original row. */
  lemma ToggledTwice(row: SettingsRow, f: Field)
    ensures Toggled(Toggled(row, f), f) == row
  {
    var r := Toggled(Toggled(row, f), f);
    forall g ensures Get(r, g) == Get(row, g) {
      if g != f {
        assert Get(Toggled(row, f), g) == Get(row, g);
      }
    }
    RowsEqual(r, row);
  }

  /** The settings a click on `f` leaves once the update has settled: the
      flipped row stays unless the store reported an error, in which case the
      pre-click row is put back; with no settings loaded nothing happens. A
      rejected await skips the rollback, so the flip stays. */
  function AfterToggle(settings: Option<SettingsRow>, f: Field, update: Status): (r: Option<SettingsRow>)
    ensures settings.None? ==> r.None?
    ensures update.Failed? ==> r == settings
    ensures !update.Failed? && settings.Some? ==>
      r.Some? && r.value.userId == settings.value.userId &&
      Get(r.value, f) == !Get(settings.value, f) &&
      forall g :: g != f ==> Get(r.value, g) == Get(settings.value, g)
  {
    match settings
    case None => None
    case Some(row) => if update.Failed? then Some(row) else Some(Toggled(row, f))
  }

  /** Two clicks on the same flag whose updates both went through give back
      the settings the page had before the first one. */
  lemma AfterToggleTwice(settings: Option<SettingsRow>, f: Field)
    ensures AfterToggle(AfterToggle(settings, f, Succeeded), f, Succeeded) == settings
  {
    if settings.Some? {
      ToggledTwice(settings.value, f);
    }
  }

  /** The row inserted for a user who has none: their id, every flag false. */
  function DefaultRow(userId: string): (r: SettingsRow)
    ensures r.userId == userId
    ensures forall g :: !Get(r, g)
  {
    SettingsRow(userId, false, false, false, false, false)
  }

  /** The calls the page makes on the `UserSettings` table, in order. */
  datatype Request =
    | SelectByUser(userId: string)
    | InsertRow(row: SettingsRow)
    | UpdateField(userId: string, field: Field, value: bool)

  /** One rendered flag button. */
  datatype Button = Button(title: string, field: Field, bgClass: string, icon: string)

  /** `renderSettingButton(label, field)`, the label passed as `title`: nothing while there are no settings;
      otherwise green with a check mark for a true flag, red with a cross for a false one. */
  function RenderSettingButton(settings: Option<SettingsRow>, title: string, f: Field): (b: Option<Button>)
    ensures b.None? <==> settings.None?
    ensures b.Some? ==> b.value.title == title && b.value.field == f
    ensures b.Some? ==> (b.value.bgClass == "bg-green-500" <==> Get(settings.value, f))
    ensures b.Some? ==> (b.value.bgClass == "bg-red-500" <==> !Get(settings.value, f))
    ensures b.Some? ==> (b.value.icon == "✓" <==> Get(settings.value, f))
    ensures b.Some? ==> (b.value.icon == "✕" <==> !Get(settings.value, f))
  {
    match settings
    case None => None
    case Some(row) =>
      var value := Get(row, f);
      Some(Button(title, f, if value then "bg-green-500" else "bg-red-500", if value then "✓" else "✕"))
  }

  /** What the page shows. */
  datatype View = LoadingSettings | Buttons(buttons: seq<Option<Button>>)

  /** The order in which the page lays out the flag buttons. */
  const PageOrder: seq<Field> := [DairyFree, Vegan, NutFree, Vegetarian, GlutenFree]

  /** The label the page gives each of those buttons. */
  const PageLabels: seq<string> := ["Dairy Free", "Vegan", "Nut Free", "Vegetarian", "Gluten Free"]

  /** The loading text, or one button per flag in page order. */
  function RenderPage(loading: bool, settings: Option<SettingsRow>): (v: View)
    ensures v.LoadingSettings? <==> loading
    ensures v.Buttons? ==> |v.buttons| == 5
    ensures v.Buttons? ==> forall i :: 0 <= i < 5 ==> (v.buttons[i].None? <==> settings.None?)
    ensures v.Buttons? ==>
      forall i :: 0 <= i < 5 ==> v.buttons[i] == RenderSettingButton(settings, PageLabels[i], PageOrder[i])
  {
    if loading then LoadingSettings
    else Buttons([
      RenderSettingButton(settings, "Dairy Free", DairyFree),
      RenderSettingButton(settings, "Vegan", Vegan),
      RenderSettingButton(settings, "Nut Free", NutFree),
      RenderSettingButton(settings, "Vegetarian", Vegetarian),
      RenderSettingButton(settings, "Gluten Free", GlutenFree)])
  }

  /** The page's state cells, with the calls it made on the store and the
      paths it pushed on the router. */
  class SettingsPage {
    var settings: Option<SettingsRow>
    var loading: bool
    var requests: seq<Request>
    var pushes: seq<string>

    constructor ()
      ensures settings == None && loading
      ensures requests == [] && pushes == []
    {
      settings, loading := None, true;
      requests, pushes := [], [];
    }

    /** `fetchSettings`, with the answer of the select (`fetched`) and, when
        it is reached, the answer of the insert (`created`) as inputs. A
        rejected await ends the effect where it stands. */
    method FetchSettings(session: Session, fetched: Reply<SettingsRow>, created: Reply<SettingsRow>)
      modifies this
      // no session: redirect to /login, no call on the store, nothing else changes
      ensures !session.Present() ==>
        pushes == old(pushes) + ["/login"] && requests == old(requests) &&
        settings == old(settings) && loading == old(loading)
      ensures session.Present() ==> pushes == old(pushes)
      ensures session.Present() ==>
        var user := session.userId;
        match fetched
        case Threw =>
          requests == old(requests) + [SelectByUser(user)] && settings == old(settings) && loading
        case Failed =>
          requests == old(requests) + [SelectByUser(user)] && settings == old(settings) && !loading
        case Rows(row) =>
          requests == old(requests) + [SelectByUser(user)] && settings == Some(row) && !loading
        case NoRows =>
          requests == old(requests) + [SelectByUser(user), InsertRow(DefaultRow(user))] &&
          match created
          case Threw => settings == old(settings) && loading
          case Failed => settings == old(settings) && !loading
          case NoRows => settings == None && !loading
          case Rows(row) => settings == Some(row) && !loading
    {
      if !session.Present() {
        pushes := pushes + ["/login"];
        return;
      }
      loading := true;
      requests := requests + [SelectByUser(session.userId)];
      if fetched.Threw? {
        return;
      }
      if fetched.Failed? {
        loading := false;
        return;
      }
      if fetched.NoRows? {
        requests := requests + [InsertRow(DefaultRow(session.userId))];
        if created.Threw? {
          return;
        }
        if created.Failed? {
          loading := false;
          return;
        }
        settings := if created.Rows? then Some(created.data) else None;
        loading := false;
        return;
      }
      settings := Some(fetched.data);
      loading := false;
    }

    /** `handleToggle(field)`, with the answer of the update as an input:
        flip the local copy first, then restore the pre-click row if the
        store reports an error. */
    method HandleToggle(f: Field, update: Status)
      modifies this
      ensures pushes == old(pushes) && loading == old(loading)
      // no settings loaded: nothing happens
      ensures old(settings).None? ==> settings == old(settings) && requests == old(requests)
      ensures old(settings).Some? ==>
        var row := old(settings).value;
        requests == old(requests) + [UpdateField(row.userId, f, !Get(row, f))]
      ensures settings == AfterToggle(old(settings), f, update)
    {
      if settings.None? {
        return;
      }
      var previous := settings.value;
      var updatedValue := !Get(previous, f);
      settings := Some(Set(previous, f, updatedValue));
      requests := requests + [UpdateField(previous.userId, f, updatedValue)];
      if update.Failed? {
        settings := Some(previous);
      }
    }
  }
}

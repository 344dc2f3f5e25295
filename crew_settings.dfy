/** The per-kind crew settings record (`crewSettings`), the edit a form field
    makes to it (`handleCrewSettingChange`) and the refresh that selecting a
    client makes to the autoblogging kind (`handleClientSelect`). */
module CrewSettings {
  import opened JsValues

  /** One job kind's settings: field name to value. */
  type KindSettings = map<string, JsValue>
  /** `crewSettings`: job kind to that kind's settings. */
  type Settings = map<string, KindSettings>
  /** A client record from the client directory: its own properties. */
  type Client = map<string, JsValue>

  const Autoblogging: string := "autoblogging"

  /** The initial value of `crewSettings`. */
  function InitialSettings(): Settings
  {
    map[
      Autoblogging := InitialAutoblogging(),
      "campaign_planning" := InitialCampaignPlanning(),
      "client_reporting" := InitialClientReporting(),
      "networking" := InitialNetworking(),
      "pr_research" := InitialPrResearch()
    ]
  }

  function InitialAutoblogging(): KindSettings
  {
    map[
      "topic" := JsString(""),
      "target_audience" := JsString(""),
      "headline" := JsString(""),
      "subheading" := JsString(""),
      "key_points" := JsArray([]),
      "tone_of_voice" := JsString(""),
      "industry_focus" := JsString(""),
      "target_publications" := JsString(""),
      "company_boilerplate" := JsString(""),
      "spokesperson_name" := JsString(""),
      "spokesperson_title" := JsString(""),
      "contact_information" := JsString(""),
      "release_urgency" := JsString("normal"),
      "distribution_channels" := JsArray([]),
      "related_keywords" := JsString(""),
      "target_word_count" := JsString("500")
    ]
  }

  function InitialCampaignPlanning(): KindSettings
  {
    map[
      "focus_topic" := JsString(""),
      "target_audience" := JsString(""),
      "campaign_duration" := JsString(""),
      "key_message" := JsString(""),
      "secondary_messages" := JsArray([])
    ]
  }

  function InitialClientReporting(): KindSettings
  {
    map["client_name" := JsString(""), "report_frequency" := JsString("daily")]
  }

  function InitialNetworking(): KindSettings
  {
    map["client_name" := JsString(""), "industry" := JsString(""), "location" := JsString("")]
  }

  function InitialPrResearch(): KindSettings
  {
    map["client_name" := JsString(""), "industry" := JsString("")]
  }

  /** `...prev[crew]`: spreading a missing kind contributes no fields. This is
      the lookup-with-default of `Field`, with an empty record as the default. */
  function Spread(s: Settings, crew: string): KindSettings
  {
    if crew in s then s[crew] else map[]
  }

  /** `client.key`: the property read `Get` on the client object, so an absent
      property reads as undefined. */
  function Field(c: Client, key: string): JsValue
  {
    Get(JsObject(c), key)
  }

  /** `handleCrewSettingChange(crew, field, value)`: only `settings[crew][field]`
      changes; every other kind and every other field of `crew` keeps its value. */
  function EditSetting(s: Settings, crew: string, field: string, value: JsValue): (r: Settings)
    ensures r.Keys == s.Keys + {crew}
    ensures r[crew].Keys == Spread(s, crew).Keys + {field}
    ensures r[crew][field] == value
    ensures forall f :: f in Spread(s, crew) && f != field ==> r[crew][f] == s[crew][f]
    ensures forall k :: k in s && k != crew ==> r[k] == s[k]
  {
    s[crew := Spread(s, crew)[field := value]]
  }

  /** Editing a field back to the value it had restores the settings exactly. */
  lemma EditSettingUndo(s: Settings, crew: string, field: string, value: JsValue)
    requires crew in s && field in s[crew]
    ensures EditSetting(EditSetting(s, crew, field, value), crew, field, s[crew][field]) == s
  {
    var r := EditSetting(EditSetting(s, crew, field, value), crew, field, s[crew][field]);
    assert r[crew] == s[crew];
  }

  /** Of two edits to the same field, the later one wins. */
  lemma EditSettingLastWins(s: Settings, crew: string, field: string, v1: JsValue, v2: JsValue)
    ensures EditSetting(EditSetting(s, crew, field, v1), crew, field, v2)
         == EditSetting(s, crew, field, v2)
  {
    var a := EditSetting(EditSetting(s, crew, field, v1), crew, field, v2);
    var b := EditSetting(s, crew, field, v2);
    assert a[crew] == b[crew];
  }

  /** Edits to different fields, or to different kinds, commute. */
  lemma EditSettingCommutes(s: Settings, c1: string, f1: string, v1: JsValue,
                            c2: string, f2: string, v2: JsValue)
    requires c1 != c2 || f1 != f2
    ensures EditSetting(EditSetting(s, c1, f1, v1), c2, f2, v2)
         == EditSetting(EditSetting(s, c2, f2, v2), c1, f1, v1)
  {
    if c1 != c2 {
      var k1, k2 := Spread(s, c1)[f1 := v1], Spread(s, c2)[f2 := v2];
      assert Spread(s[c1 := k1], c2) == Spread(s, c2);
      assert Spread(s[c2 := k2], c1) == Spread(s, c1);
      assert s[c1 := k1][c2 := k2] == s[c2 := k2][c1 := k1];
    } else {
      var k := Spread(s, c1);
      assert Spread(s[c1 := k[f1 := v1]], c1) == k[f1 := v1];
      assert Spread(s[c1 := k[f2 := v2]], c1) == k[f2 := v2];
      assert k[f1 := v1][f2 := v2] == k[f2 := v2][f1 := v1];
    }
  }

  /** `clients.find((c) => c.id === clientId)`: the first client whose id is
      strictly equal to `clientId`, or none. */
  function FindClient(clients: seq<Client>, clientId: JsValue): (r: Option<Client>)
    ensures r.None? <==> forall c :: c in clients ==> !StrictEquals(Field(c, "id"), clientId)
    ensures r.Some? ==> exists i :: 0 <= i < |clients| && clients[i] == r.value
                          && StrictEquals(Field(clients[i], "id"), clientId)
                          && forall j :: 0 <= j < i ==> !StrictEquals(Field(clients[j], "id"), clientId)
  {
    if clients == [] then None
    else if StrictEquals(Field(clients[0], "id"), clientId) then Some(clients[0])
    else
      var r := FindClient(clients[1..], clientId);
      assert forall c :: c in clients[1..] ==> c in clients;
      assert r.Some? ==> exists i :: 0 < i < |clients| && clients[i] == r.value
                          && StrictEquals(Field(clients[i], "id"), clientId)
                          && forall j :: 0 <= j < i ==> !StrictEquals(Field(clients[j], "id"), clientId) by {
        if r.Some? {
          var i :| 0 <= i < |clients[1..]| && clients[1..][i] == r.value
                   && StrictEquals(Field(clients[1..][i], "id"), clientId)
                   && forall j :: 0 <= j < i ==> !StrictEquals(Field(clients[1..][j], "id"), clientId);
          assert clients[i + 1] == r.value;
          forall j | 0 <= j < i + 1
            ensures !StrictEquals(Field(clients[j], "id"), clientId)
          {
            if j > 0 { assert clients[j] == clients[1..][j - 1]; }
          }
        }
      }
      r
  }

  /** The autoblogging fields a client refreshes, each with the client property
      it is taken from. */
  const ClientSources: map<string, string> := map[
    "industry_focus" := "industry",
    "company_boilerplate" := "boilerplate",
    "contact_information" := "contact_info",
    "target_audience" := "target_audience",
    "spokesperson_name" := "spokesperson_name",
    "spokesperson_title" := "spokesperson_title"
  ]

  /** `client.<source> || ""` */
  function FromClient(client: Client, source: string): JsValue
  {
    Or(Field(client, source), JsString(""))
  }

  /** The settings update `handleClientSelect` makes for a found client: the six
      autoblogging fields take the client's value, or "" when it is missing or
      falsy; every other autoblogging field and every other kind is unchanged. */
  function ApplyClient(s: Settings, client: Client): (r: Settings)
    ensures r.Keys == s.Keys + {Autoblogging}
    ensures r[Autoblogging].Keys == Spread(s, Autoblogging).Keys + ClientSources.Keys
    ensures forall t :: t in ClientSources ==>
              var v := Field(client, ClientSources[t]);
              r[Autoblogging][t] == if Truthy(v) then v else JsString("")
    ensures forall f :: f in Spread(s, Autoblogging) && f !in ClientSources ==>
              r[Autoblogging][f] == s[Autoblogging][f]
    ensures forall k :: k in s && k != Autoblogging ==> r[k] == s[k]
  {
    s[Autoblogging := Spread(s, Autoblogging)
                      + map t | t in ClientSources :: FromClient(client, ClientSources[t])]
  }

  /** Applying the same client twice is the same as applying it once, so the
      page's re-run of the selection on `selectedClient` changes nothing more. */
  lemma ApplyClientIdempotent(s: Settings, client: Client)
    ensures ApplyClient(ApplyClient(s, client), client) == ApplyClient(s, client)
  {
    var once := ApplyClient(s, client);
    var twice := ApplyClient(once, client);
    assert twice[Autoblogging] == once[Autoblogging];
  }

  /** The settings after `handleClientSelect(clientId)`: refreshed from the
      client if one has that id, unchanged otherwise. */
  function SelectClientSettings(s: Settings, clients: seq<Client>, clientId: JsValue): Settings
  {
    match FindClient(clients, clientId)
    case None => s
    case Some(c) => ApplyClient(s, c)
  }

  /** Selecting an id no client has leaves the settings as they were; selecting
      a client changes no kind other than autoblogging. */
  lemma SelectClientFrame(s: Settings, clients: seq<Client>, clientId: JsValue)
    ensures (forall c :: c in clients ==> !StrictEquals(Field(c, "id"), clientId))
            ==> SelectClientSettings(s, clients, clientId) == s
    ensures forall k :: k in s && k != Autoblogging ==> SelectClientSettings(s, clients, clientId)[k] == s[k]
  {
  }
}

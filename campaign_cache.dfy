/** The organiser's local list of campaigns, and what each backend operation does
    to it, to the loading flag and to the error message. The backend's answers are
    parameters. */
module CampaignCache {
  import opened Wrappers
  import opened Lists
  import CampaignApi

  /** A campaign row as the list holds it; the columns the list logic never reads
      are left out. */
  datatype Campaign = Campaign(id: string, title: string, status: CampaignApi.Status)

  /** What an operation throws: the missing-user error, or the backend's error. */
  datatype Thrown = NotAuthenticated | ApiFailure(message: string)

  const FetchError: string := "Erro ao carregar campanhas"
  const CreateError: string := "Erro ao criar campanha"
  const UpdateError: string := "Erro ao atualizar campanha"
  const DeleteError: string := "Erro ao deletar campanha"
  const PublishError: string := "Erro ao publicar campanha"

  function Ids(campaigns: seq<Campaign>): (ids: seq<string>)
    ensures |ids| == |campaigns|
    ensures forall i :: 0 <= i < |campaigns| ==> ids[i] == campaigns[i].id
  {
    if campaigns == [] then [] else [campaigns[0].id] + Ids(campaigns[1..])
  }

  /** `prev.map(c => c.id === campaign.id ? campaign : c)`. */
  function ReplaceById(campaigns: seq<Campaign>, campaign: Campaign): (r: seq<Campaign>)
    ensures |r| == |campaigns|
    ensures forall i :: 0 <= i < |campaigns| ==>
      r[i] == (if campaigns[i].id == campaign.id then campaign else campaigns[i])
  {
    if campaigns == [] then []
    else [if campaigns[0].id == campaign.id then campaign else campaigns[0]] + ReplaceById(campaigns[1..], campaign)
  }

  /** Replacing keeps every id in its place, so the list's order by id is kept. */
  lemma ReplaceKeepsIds(campaigns: seq<Campaign>, campaign: Campaign)
    ensures Ids(ReplaceById(campaigns, campaign)) == Ids(campaigns)
  {
  }

  /** A campaign whose id is not in the list leaves it as it is. */
  lemma ReplaceAbsent(campaigns: seq<Campaign>, campaign: Campaign)
    requires campaign.id !in Ids(campaigns)
    ensures ReplaceById(campaigns, campaign) == campaigns
  {
    forall i | 0 <= i < |campaigns| ensures campaigns[i].id != campaign.id {
      assert Ids(campaigns)[i] == campaigns[i].id;
    }
  }

  /** After replacing, the campaign is in the list exactly when its id was. */
  lemma ReplacePresent(campaigns: seq<Campaign>, campaign: Campaign)
    ensures campaign in ReplaceById(campaigns, campaign) <==> campaign.id in Ids(campaigns)
  {
    var r := ReplaceById(campaigns, campaign);
    if campaign.id in Ids(campaigns) {
      var i :| 0 <= i < |campaigns| && Ids(campaigns)[i] == campaign.id;
      assert r[i] == campaign;
    } else {
      ReplaceAbsent(campaigns, campaign);
      forall i | 0 <= i < |campaigns| ensures campaigns[i] != campaign {
        assert Ids(campaigns)[i] == campaigns[i].id;
      }
    }
  }

  /** Replacing twice with the same campaign is replacing once. */
  lemma ReplaceIdempotent(campaigns: seq<Campaign>, campaign: Campaign)
    ensures ReplaceById(ReplaceById(campaigns, campaign), campaign) == ReplaceById(campaigns, campaign)
  {
  }

  predicate HasOtherId(c: Campaign, id: string) {
    c.id != id
  }

  /** `prev.filter(c => c.id !== id)`. */
  function WithoutCampaign(campaigns: seq<Campaign>, id: string): (r: seq<Campaign>)
    ensures SubsequenceOf(r, campaigns)
    ensures forall c :: c in r <==> c in campaigns && c.id != id
  {
    Filter(campaigns, (c: Campaign) => HasOtherId(c, id))
  }

  /** Deleting removes every copy of the entries with that id and keeps every
      copy of the others. */
  lemma WithoutCampaignCount(campaigns: seq<Campaign>, id: string, c: Campaign)
    ensures multiset(WithoutCampaign(campaigns, id))[c] == if c.id == id then 0 else multiset(campaigns)[c]
  {
    FilterCount(campaigns, (c: Campaign) => HasOtherId(c, id), c);
  }

  /** Deleting a freshly created campaign whose id the list did not hold gives
      the list back. */
  lemma DeleteUndoesCreate(campaigns: seq<Campaign>, campaign: Campaign)
    requires campaign.id !in Ids(campaigns)
    ensures WithoutCampaign([campaign] + campaigns, campaign.id) == campaigns
  {
    var keep := (c: Campaign) => HasOtherId(c, campaign.id);
    assert ([campaign] + campaigns)[1..] == campaigns;
    forall i | 0 <= i < |campaigns| ensures keep(campaigns[i]) {
      assert Ids(campaigns)[i] == campaigns[i].id;
    }
  }

  /** The hook's state. */
  class CampaignList {
    var campaigns: seq<Campaign>
    var loading: bool
    var error: Option<string>

    constructor()
      ensures campaigns == [] && loading && error == None
    {
      campaigns := [];
      loading := true;
      error := None;
    }

    /** `fetchCampaigns`. `userId` is the signed-in user, if any; `response` the
        rows or the backend error. Without a user only `loading` is cleared. */
    method FetchCampaigns(userId: Option<string>, response: Result<Option<seq<Campaign>>, string>)
      modifies this
      ensures !loading
      ensures userId.None? ==> campaigns == old(campaigns) && error == old(error)
      ensures userId.Some? && response.Failure? ==> campaigns == old(campaigns) && error == Some(FetchError)
      ensures userId.Some? && response.Success? ==> campaigns == response.value.GetOr([]) && error == None
    {
      if userId.None? {
        loading := false;
        return;
      }
      loading := true;
      error := None;
      if response.Failure? {
        error := Some(FetchError);
      } else {
        campaigns := response.value.GetOr([]);
      }
      loading := false;
    }

    /** `createCampaign`. Without a user it throws before touching the state; a
        backend error is recorded and rethrown with `loading` left set; otherwise
        the new campaign, if one came back, goes to the front. */
    method CreateCampaign(userId: Option<string>, response: Result<Option<Campaign>, string>)
      returns (result: Result<Option<Campaign>, Thrown>)
      modifies this
      ensures userId.None? ==> (result == Failure(NotAuthenticated) &&
          campaigns == old(campaigns) && loading == old(loading) && error == old(error))
      ensures userId.Some? && response.Failure? ==> (result == Failure(ApiFailure(response.error)) &&
          campaigns == old(campaigns) && loading && error == Some(CreateError))
      ensures userId.Some? && response.Success? ==> (result == Success(response.value) &&
          campaigns == (if response.value.Some? then [response.value.value] else []) + old(campaigns) &&
          !loading && error == old(error))
    {
      if userId.None? {
        return Failure(NotAuthenticated);
      }
      loading := true;
      if response.Failure? {
        error := Some(CreateError);
        return Failure(ApiFailure(response.error));
      }
      if response.value.Some? {
        campaigns := [response.value.value] + campaigns;
      }
      loading := false;
      result := Success(response.value);
    }

    /** `updateCampaign`: no user is required; a returned campaign replaces the
        entries with its id. */
    method UpdateCampaign(response: Result<Option<Campaign>, string>)
      returns (result: Result<Option<Campaign>, Thrown>)
      modifies this
      ensures response.Failure? ==> (result == Failure(ApiFailure(response.error)) &&
          campaigns == old(campaigns) && loading && error == Some(UpdateError))
      ensures response.Success? ==> (result == Success(response.value) &&
          campaigns == (if response.value.Some? then ReplaceById(old(campaigns), response.value.value) else old(campaigns)) &&
          !loading && error == old(error))
    {
      loading := true;
      if response.Failure? {
        error := Some(UpdateError);
        return Failure(ApiFailure(response.error));
      }
      if response.value.Some? {
        campaigns := ReplaceById(campaigns, response.value.value);
      }
      loading := false;
      result := Success(response.value);
    }

    /** `deleteCampaign(id)`: `apiError` is the backend's error, if any. On success
        the entries with that id are dropped. */
    method DeleteCampaign(id: string, userId: Option<string>, apiError: Option<string>)
      returns (thrown: Option<Thrown>)
      modifies this
      ensures userId.None? ==> (thrown == Some(NotAuthenticated) &&
          campaigns == old(campaigns) && loading == old(loading) && error == old(error))
      ensures userId.Some? && apiError.Some? ==> (thrown == Some(ApiFailure(apiError.value)) &&
          campaigns == old(campaigns) && loading && error == Some(DeleteError))
      ensures userId.Some? && apiError.None? ==> (thrown == None &&
          campaigns == WithoutCampaign(old(campaigns), id) && !loading && error == old(error))
    {
      if userId.None? {
        return Some(NotAuthenticated);
      }
      loading := true;
      if apiError.Some? {
        error := Some(DeleteError);
        return Some(ApiFailure(apiError.value));
      }
      campaigns := WithoutCampaign(campaigns, id);
      loading := false;
      thrown := None;
    }

    /** `publishCampaign(id)`: like an update, behind the user check. */
    method PublishCampaign(userId: Option<string>, response: Result<Option<Campaign>, string>)
      returns (result: Result<Option<Campaign>, Thrown>)
      modifies this
      ensures userId.None? ==> (result == Failure(NotAuthenticated) &&
          campaigns == old(campaigns) && loading == old(loading) && error == old(error))
      ensures userId.Some? && response.Failure? ==> (result == Failure(ApiFailure(response.error)) &&
          campaigns == old(campaigns) && loading && error == Some(PublishError))
      ensures userId.Some? && response.Success? ==> (result == Success(response.value) &&
          campaigns == (if response.value.Some? then ReplaceById(old(campaigns), response.value.value) else old(campaigns)) &&
          !loading && error == old(error))
    {
      if userId.None? {
        return Failure(NotAuthenticated);
      }
      loading := true;
      if response.Failure? {
        error := Some(PublishError);
        return Failure(ApiFailure(response.error));
      }
      if response.value.Some? {
        campaigns := ReplaceById(campaigns, response.value.value);
      }
      loading := false;
      result := Success(response.value);
    }
  }
}

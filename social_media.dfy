/** The social-network links page: the table of networks and the add-link modal. */
module SocialMedia {
  import opened Wrappers
  import opened Text

  datatype SocialNetwork = SocialNetwork(id: string, name: string, connected: bool, url: Option<string>)

  /** The eight networks the page starts with, none connected (icons left out). */
  const InitialNetworks: seq<SocialNetwork> := [
    SocialNetwork("facebook", "Facebook", false, None),
    SocialNetwork("instagram", "Instagram", false, None),
    SocialNetwork("tiktok", "Tiktok", false, None),
    SocialNetwork("telegram", "Telegram", false, None),
    SocialNetwork("whatsapp-group", "Whatsapp grupo", false, None),
    SocialNetwork("whatsapp-support", "Whatsapp suporte", false, None),
    SocialNetwork("youtube", "Youtube", false, None),
    SocialNetwork("discord", "Discord", false, None)
  ]

  predicate DistinctIds(networks: seq<SocialNetwork>) {
    forall i, j :: 0 <= i < j < |networks| ==> networks[i].id != networks[j].id
  }

  lemma InitialIdsDistinct()
    ensures DistinctIds(InitialNetworks)
  {
  }

  /** The `prev.map(...)` of `handleSaveLink`: every entry with the id gets the URL
      and is marked connected. */
  function Connect(networks: seq<SocialNetwork>, id: string, url: string): (r: seq<SocialNetwork>)
    ensures |r| == |networks|
    ensures forall i :: 0 <= i < |networks| && networks[i].id != id ==> r[i] == networks[i]
    ensures forall i :: 0 <= i < |networks| && networks[i].id == id ==>
      r[i] == networks[i].(connected := true, url := Some(url))
  {
    if networks == [] then []
    else
      [if networks[0].id == id then networks[0].(connected := true, url := Some(url)) else networks[0]]
        + Connect(networks[1..], id, url)
  }

  /** In a table with distinct ids, connecting the network at `k` changes that entry
      alone, keeps every id in its place and keeps the ids distinct. */
  lemma ConnectOne(networks: seq<SocialNetwork>, k: nat, url: string)
    requires DistinctIds(networks) && k < |networks|
    ensures var r := Connect(networks, networks[k].id, url);
      r[k].connected && r[k].url == Some(url) && r[k].id == networks[k].id && r[k].name == networks[k].name &&
      (forall i :: 0 <= i < |networks| && i != k ==> r[i] == networks[i]) &&
      DistinctIds(r)
  {
  }

  /** Saving the same link again changes nothing. */
  lemma ConnectIdempotent(networks: seq<SocialNetwork>, id: string, url: string)
    ensures Connect(Connect(networks, id, url), id, url) == Connect(networks, id, url)
  {
  }

  /** The page's state. */
  class SocialMediaPage {
    var showModal: bool
    var selectedNetwork: Option<SocialNetwork>
    var linkInput: string
    var socialNetworks: seq<SocialNetwork>

    constructor()
      ensures !showModal && selectedNetwork == None && linkInput == []
      ensures socialNetworks == InitialNetworks
    {
      showModal := false;
      selectedNetwork := None;
      linkInput := [];
      socialNetworks := InitialNetworks;
    }

    /** `handleAddSocialNetwork`: select the network, clear the input, open. */
    method HandleAddSocialNetwork(network: SocialNetwork)
      modifies this
      ensures selectedNetwork == Some(network) && linkInput == [] && showModal
      ensures socialNetworks == old(socialNetworks)
    {
      selectedNetwork := Some(network);
      linkInput := [];
      showModal := true;
    }

    method SetLinkInput(text: string)
      modifies this
      ensures linkInput == text
      ensures showModal == old(showModal) && selectedNetwork == old(selectedNetwork)
      ensures socialNetworks == old(socialNetworks)
    {
      linkInput := text;
    }

    /** The "Adicionar" button is disabled exactly when the trimmed input is empty. */
    function SaveDisabled(): (disabled: bool)
      reads this
      ensures disabled <==> forall i :: 0 <= i < |linkInput| ==> IsWhitespace(linkInput[i])
    {
      BlankIffAllWhitespace(linkInput);
      IsBlank(linkInput)
    }

    /** `handleSaveLink`: with a network selected and a non-blank link, store the
        trimmed link on that network and reset the modal; otherwise nothing
        changes. */
    method HandleSaveLink()
      modifies this
      ensures old(selectedNetwork).None? || old(IsBlank(linkInput)) ==>
        showModal == old(showModal) && selectedNetwork == old(selectedNetwork) &&
        linkInput == old(linkInput) && socialNetworks == old(socialNetworks)
      ensures old(selectedNetwork).Some? && !old(IsBlank(linkInput)) ==>
        socialNetworks == Connect(old(socialNetworks), old(selectedNetwork).value.id, Trim(old(linkInput))) &&
        !showModal && selectedNetwork == None && linkInput == []
    {
      if selectedNetwork.Some? && !IsBlank(linkInput) {
        socialNetworks := Connect(socialNetworks, selectedNetwork.value.id, Trim(linkInput));
        showModal := false;
        selectedNetwork := None;
        linkInput := [];
      }
    }

    /** `handleCloseModal`: reset the modal, leave the table. */
    method HandleCloseModal()
      modifies this
      ensures !showModal && selectedNetwork == None && linkInput == []
      ensures socialNetworks == old(socialNetworks)
    {
      showModal := false;
      selectedNetwork := None;
      linkInput := [];
    }
  }
}

/** `internal/service/client.go`: registration of clients. */
module ClientRegistration {
  import opened Prelude
  import opened Entities
  import opened Crypto
  import opened Protocol
  import opened Sequential
  import opened Cache
  import opened Repositories
  import opened Services
  import Base64Url

  function RegisterClientAnswer(r: Result<RegisterClientResponse>): Outcome {
    match r case Ok(created) => ClientCreated(created) case Err(e) => Failed(e)
  }

  lemma {:induction false} OffenceAt(grantTypes: seq<string>, isPublic: bool, i: nat)
    requires i <= |grantTypes| && forall j :: 0 <= j < i ==> Offence(grantTypes[j], isPublic).None?
    ensures FirstOffence(grantTypes, isPublic) == FirstOffence(grantTypes[i..], isPublic)
  {
    if i == 0 {
      assert grantTypes[0..] == grantTypes;
    } else {
      OffenceAt(grantTypes, isPublic, i - 1);
      assert grantTypes[i - 1..][1..] == grantTypes[i..];
    }
  }

  /** The grant type at `i` is the first in the list that is neither of the two supported ones. */
  predicate FirstOther(grantTypes: seq<string>, i: int) {
    && 0 <= i < |grantTypes| && grantTypes[i] != "authorization_code" && grantTypes[i] != "refresh_token"
    && forall j :: 0 <= j < i ==> grantTypes[j] == "authorization_code" || grantTypes[j] == "refresh_token"
  }

  /** The grant types are checked in order, and the first one that offends decides. */
  method CheckGrantTypes(grantTypes: seq<string>, isPublic: bool) returns (offence: Option<Error>)
    ensures offence == FirstOffence(grantTypes, isPublic)
    ensures offence.None? <==> forall g :: g in grantTypes ==> g == "authorization_code" || g == "refresh_token"
    ensures forall i :: FirstOther(grantTypes, i) ==>
              offence == Some(if isPublic && grantTypes[i] == "client_credentials"
                              then PublicClientCredentialsGrant else UnsupportedGrantType)
  {
    for i := 0 to |grantTypes|
      invariant forall j :: 0 <= j < i ==> Offence(grantTypes[j], isPublic).None?
    {
      OffenceAt(grantTypes, isPublic, i);
      assert grantTypes[i..][0] == grantTypes[i] && grantTypes[i] in grantTypes;
      if isPublic && grantTypes[i] == GRANT_CLIENT_CREDENTIALS {
        return Some(PublicClientCredentialsGrant);
      }
      if !SupportedGrantType(grantTypes[i]) {
        return Some(UnsupportedGrantType);
      }
    }
    OffenceAt(grantTypes, isPublic, |grantTypes|);
    return None;
  }

  class ClientService {
    const k: Primitives
    const clients: ClientRepository

    constructor (k: Primitives, clients: ClientRepository)
      ensures this.k == k && this.clients == clients
    {
      this.k, this.clients := k, clients;
    }

    /** The one step of a registration fails if any call in it does. */
    static ghost function Combined(at: Moment, alsoFails: bool): Moment {
      at.(oracle := at.oracle.(fail := at.oracle.fail || alsoFails))
    }

    /** `drawFails` says that the source of randomness fails, which only a confidential registration can
        notice. The secret of 43 characters is the one whose hash was stored, and hashing it cannot
        fail; a public client gets none. */
    method RegisterClient(req: RegisterClientRequest, at: Moment, drawFails: bool, ghost cache: RedisClient)
      returns (r: Result<RegisterClientResponse>)
      requires clients.db.Valid() && |at.oracle.random| == 32
      modifies clients.db`clients
      ensures clients.db.Valid()
      ensures Behaves(k, old(WorldOf(cache, clients.db)), WorldOf(cache, clients.db), Request.RegisterClient(req),
                      [Combined(at, drawFails && !req.isPublic)], RegisterClientAnswer(r))
      ensures r.Ok? <==>
                && (forall g :: g in req.grantTypes ==> g == "authorization_code" || g == "refresh_token")
                && at.oracle.uuid !in old(clients.db.clients)
                && !at.oracle.fail && !(drawFails && !req.isPublic)
      ensures forall i :: FirstOther(req.grantTypes, i) ==>
                r == Err(if req.isPublic && req.grantTypes[i] == "client_credentials"
                         then PublicClientCredentialsGrant else UnsupportedGrantType)
      ensures (forall g :: g in req.grantTypes ==> g == "authorization_code" || g == "refresh_token") && r.Err? ==>
                r == Err(Infrastructure)
      ensures r.Err? ==> clients.db.clients == old(clients.db.clients)
      ensures r.Ok? ==>
                && r.value.clientID == at.oracle.uuid && r.value.name == req.name
                && r.value.clientID !in old(clients.db.clients)
                && r.value.clientID in clients.db.clients
                && var client := clients.db.clients[r.value.clientID];
                && clients.db.clients == old(clients.db.clients)[r.value.clientID := client]
                && client == Client(at.oracle.uuid, req.name, client.secretHash, req.redirectURIs, req.scopes,
                                    req.grantTypes, req.isFirstParty)
                && (req.isPublic ==> client.secretHash == "" && r.value.clientSecret == "")
                && (!req.isPublic ==>
                      && r.value.clientSecret == Base64Url.Encode(at.oracle.random) && |r.value.clientSecret| == 43
                      && client.secretHash == k.hash(r.value.clientSecret, at.oracle.salt))
                && (!req.isPublic && k.Valid() ==>
                      client.secretHash != "" && k.matches(client.secretHash, r.value.clientSecret))
    {
      ghost var request, script := Request.RegisterClient(req), [Combined(at, drawFails && !req.isPublic)];
      ghost var w0 := WorldOf(cache, clients.db);
      Begins(k, w0, request, script);
      Steps(k, w0, request, script, 0, w0, RegisterClientAt);
      SecretFits(at.oracle.random);
      hide Behaves, Reaches, RunAlone, FirstOffence, FirstOther;

      var offence := CheckGrantTypes(req.grantTypes, req.isPublic);
      if offence.Some? {
        Ends(k, w0, request, script, 1, w0, Failed(offence.value));
        return Err(offence.value);
      }

      var rawSecret, secretHash := "", "";
      if !req.isPublic {
        if drawFails {
          Ends(k, w0, request, script, 1, w0, Failed(Infrastructure));
          return Err(Infrastructure);
        }
        var rawBytes := new byte[32];
        FillRandom(rawBytes, at.oracle.random);
        rawSecret := Base64Url.Encode(rawBytes[..]);
        var hash := GenerateFromPassword(k, rawSecret, at.oracle.salt);
        if hash.Err? {
          assert false;  // the error path of the hashing is never taken
        }
        secretHash := hash.value;
      }

      var client := Client(at.oracle.uuid, req.name, secretHash, req.redirectURIs, req.scopes, req.grantTypes,
                           req.isFirstParty);
      var created := clients.Create(client, at.oracle.fail);
      ghost var w := WorldOf(cache, clients.db);
      if created.Err? {
        Ends(k, w0, request, script, 1, w, Failed(created.error));
        return Err(created.error);
      }
      r := Ok(RegisterClientResponse(client.id, rawSecret, client.name));
      Ends(k, w0, request, script, 1, w, ClientCreated(r.value));
    }
  }
}

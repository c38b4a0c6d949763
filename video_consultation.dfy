/**
 * `src/components/VideoConsultation.tsx`: the call screen of a
 * consultation. The media SDK is not modelled; what is kept is the list of
 * remote participants its events update, the two media toggles and the
 * values they hand to the video service, and the rule that a doctor ending
 * the call completes the consultation.
 */
module VideoConsultation {
  import opened Wrappers
  import opened Seqs
  import opened Records
  import opened Database

  /** A remote participant, known by its channel uid. */
  datatype RemoteUser = RemoteUser(uid: int, hasVideo: bool, hasAudio: bool)

  function UidOf(u: RemoteUser): int { u.uid }

  /** No two listed participants share a uid. */
  predicate UniqueUids(users: seq<RemoteUser>)
  {
    forall i, j :: 0 <= i < j < |users| ==> users[i].uid != users[j].uid
  }

  /** The `user-published` updater: a participant is added only when its uid is not yet listed. */
  function Published(users: seq<RemoteUser>, user: RemoteUser): (r: seq<RemoteUser>)
    ensures !FreshKey(users, UidOf, user.uid) ==> r == users
    ensures FreshKey(users, UidOf, user.uid) ==> r == users + [user]
    ensures !FreshKey(r, UidOf, user.uid)
    ensures UniqueUids(users) ==> UniqueUids(r)
  {
    if Find(users, (u: RemoteUser) => u.uid == user.uid).Some? then users
    else
      var r := users + [user];
      assert r[|users|] == user;
      assert forall j :: 0 <= j < |users| ==> r[j] == users[j];
      r
  }

  /** The `user-unpublished` updater: every participant with that uid leaves, the rest stay in order. */
  function Unpublished(users: seq<RemoteUser>, uid: int): (r: seq<RemoteUser>)
    ensures FreshKey(r, UidOf, uid)
    ensures forall j :: 0 <= j < |users| && users[j].uid != uid ==> users[j] in r
    ensures forall j :: 0 <= j < |r| ==> r[j] in users
  {
    assert forall j :: 0 <= j < |users| && users[j].uid != uid ==> NotKey(UidOf, uid)(users[j]);
    WithoutKey(users, UidOf, uid)
  }

  /** The filter keeps order, so uids stay distinct after someone leaves. */
  lemma {:induction false} UnpublishedKeepsUnique(users: seq<RemoteUser>, uid: int)
    requires UniqueUids(users)
    ensures UniqueUids(Unpublished(users, uid))
  {
    if |users| > 0 {
      UnpublishedKeepsUnique(users[1..], uid);
      assert users == [users[0]] + users[1..];
      WithoutKeyAppend([users[0]], users[1..], UidOf, uid);
      var rest := Unpublished(users[1..], uid);
      assert forall j :: 0 <= j < |rest| ==> rest[j] in users[1..];
      assert forall j :: 0 <= j < |users| - 1 ==> users[1..][j].uid != users[0].uid;
    }
  }

  /** A participant who publishes and then unpublishes leaves the list as it would be without them. */
  lemma PublishThenUnpublish(users: seq<RemoteUser>, user: RemoteUser)
    ensures Unpublished(Published(users, user), user.uid) == Unpublished(users, user.uid)
  {
    if FreshKey(users, UidOf, user.uid) {
      WithoutKeyAppend(users, [user], UidOf, user.uid);
      assert WithoutKey([user], UidOf, user.uid) == [];
    }
  }

  /** Call setup runs only for a loaded consultation that has a room. */
  predicate JoinsChannel(consultation: Option<Consultation>)
  {
    consultation.Some? && Present(consultation.value.roomId)
  }

  class VideoCall {
    const db: Store
    const consultationId: Id
    const userId: Id
    const userType: SenderType
    var consultation: Option<Consultation>
    var isVideoEnabled: bool
    var isAudioEnabled: bool
    var remoteUsers: seq<RemoteUser>
    /** The room handed to `videoService.joinChannel`, once the call is set up. */
    var channel: Option<string>
    /** The values handed to `videoService.toggleVideo` and `toggleAudio`, in order. */
    var videoRequests: seq<bool>
    var audioRequests: seq<bool>

    constructor (db: Store, consultationId: Id, userId: Id, userType: SenderType)
      ensures this.db == db && this.consultationId == consultationId
      ensures this.userId == userId && this.userType == userType
      ensures consultation == None && isVideoEnabled && isAudioEnabled
      ensures remoteUsers == [] && videoRequests == [] && audioRequests == [] && channel == None
    {
      this.db := db;
      this.consultationId := consultationId;
      this.userId := userId;
      this.userType := userType;
      consultation := None;
      isVideoEnabled := true;
      isAudioEnabled := true;
      remoteUsers := [];
      channel := None;
      videoRequests := [];
      audioRequests := [];
    }

    /** The loading effect: the consultation with that id, when the store has one. */
    method LoadConsultation()
      modifies this`consultation
      ensures var found := GetByKey(db.consultations, ConsultationKey, consultationId);
        consultation == (if found.Some? then found else old(consultation))
    {
      var found := GetByKey(db.consultations, ConsultationKey, consultationId);
      if found.Some? {
        consultation := found;
      }
    }

    /**
     * The joining effect: without a loaded consultation that has a room,
     * nothing happens; otherwise the call joins that room's channel.
     */
    method SetupCall() returns (joined: bool)
      modifies this`channel
      ensures joined <==> JoinsChannel(consultation)
      ensures joined ==> channel == consultation.value.roomId && Present(channel)
      ensures !joined ==> channel == old(channel)
    {
      if consultation.None? || !Present(consultation.value.roomId) {
        return false;
      }
      channel := consultation.value.roomId;
      joined := true;
    }

    method OnUserPublished(user: RemoteUser)
      requires UniqueUids(remoteUsers)
      modifies this`remoteUsers
      ensures UniqueUids(remoteUsers)
      ensures remoteUsers == Published(old(remoteUsers), user)
    {
      remoteUsers := Published(remoteUsers, user);
    }

    method OnUserUnpublished(user: RemoteUser)
      requires UniqueUids(remoteUsers)
      modifies this`remoteUsers
      ensures UniqueUids(remoteUsers)
      ensures remoteUsers == Unpublished(old(remoteUsers), user.uid)
    {
      UnpublishedKeepsUnique(remoteUsers, user.uid);
      remoteUsers := Unpublished(remoteUsers, user.uid);
    }

    /** `toggleVideo`: flips the flag and hands the new value to the video service. */
    method ToggleVideo()
      modifies this`isVideoEnabled, this`videoRequests
      ensures isVideoEnabled == !old(isVideoEnabled)
      ensures videoRequests == old(videoRequests) + [isVideoEnabled]
    {
      videoRequests := videoRequests + [!isVideoEnabled];
      isVideoEnabled := !isVideoEnabled;
    }

    /** `toggleAudio`: flips the flag and hands the new value to the video service. */
    method ToggleAudio()
      modifies this`isAudioEnabled, this`audioRequests
      ensures isAudioEnabled == !old(isAudioEnabled)
      ensures audioRequests == old(audioRequests) + [isAudioEnabled]
    {
      audioRequests := audioRequests + [!isAudioEnabled];
      isAudioEnabled := !isAudioEnabled;
    }

    /**
     * `endCall`: when a doctor ends the call of a loaded consultation, the
     * stored consultation becomes completed; a patient ending it changes nothing.
     */
    method EndCall()
      modifies db`consultations
      ensures userType == SenderDoctor && consultation.Some? ==>
        var i := KeyIndex(old(db.consultations), ConsultationKey, consultationId);
        db.consultations == (if i == -1 then old(db.consultations)
                             else old(db.consultations)[i := old(db.consultations)[i].(status := Completed)])
      ensures userType == SenderPatient || consultation.None? ==> db.consultations == old(db.consultations)
    {
      if userType == SenderDoctor && consultation.Some? {
        var _ := db.UpdateConsultation(consultationId, NoConsultationChange.(status := Some(Completed)));
      }
    }
  }
}
